// Every legal run of the asynchronous handler, over any number of training steps, is
// described in closed form by the schedule: which tensors are on the device, which buffers
// are held and which host copies exist, at each moment.
module OffloadProofs {
  import opened Options
  import opened OffloadWindow
  import opened OffloadModel
  import opened OffloadSession

  // ------------------------------------------------------------------ tags and slots
  // The handler numbers only the tensors it takes; SlotsOf lists their places.

  function SlotsOf(saves: seq<Save>): (slots: seq<nat>)
    ensures forall i :: 0 <= i < |slots| ==> slots[i] < |saves| && saves[slots[i]].offload
    ensures forall i, j :: 0 <= i < j < |slots| ==> slots[i] < slots[j]
  {
    if saves == [] then []
    else
      var n := |saves| - 1;
      SlotsOf(saves[..n]) + (if saves[n].offload then [n] else [])
  }

  // The tag index of the tensor saved at place k.
  function Rank(saves: seq<Save>, k: nat): nat
    requires k < |saves|
  {
    |SlotsOf(saves[..k])|
  }

  lemma {:induction false} RankIsSlotIndex(saves: seq<Save>, k: nat)
    requires k < |saves| && saves[k].offload
    ensures Rank(saves, k) < |SlotsOf(saves)| && SlotsOf(saves)[Rank(saves, k)] == k
  {
    var n := |saves| - 1;
    if k == n {
      assert saves[..n][..k] == saves[..k];
    } else {
      RankIsSlotIndex(saves[..n], k);
      assert saves[..n][..k] == saves[..k];
    }
  }

  lemma {:induction false} SlotsOfAppend(saves: seq<Save>, s: Save)
    ensures SlotsOf(saves + [s]) == SlotsOf(saves) + (if s.offload then [|saves|] else [])
  {
    assert (saves + [s])[..|saves|] == saves;
  }

  // ------------------------------------------------------------------ the closed form

  predicate Known(s: Schedule, tag: Tag) {
    0 <= tag.group < |s.saves| && tag.index < |SlotsOf(s.saves[tag.group])|
  }

  function TensorAt(s: Schedule, tag: Tag): Tensor
    requires Known(s, tag)
  {
    s.saves[tag.group][SlotsOf(s.saves[tag.group])[tag.index]].tensor
  }

  // The tag has been handed out and not yet taken back.
  predicate Live(s: Schedule, tag: Tag) {
    && Known(s, tag)
    && (s.pass.Forward? || tag.group < s.group
        || (tag.group == s.group && SlotsOf(s.saves[tag.group])[tag.index] in s.live))
  }

  // The tensor as bulk_reload_group brings it back.
  function Returned(t: Tensor): Tensor {
    View(Reload(Offload(t)), t.key.shape)
  }

  function StateOf(L: nat, N: nat, pass: Pass, sent: int, group: int, t: Tensor): State
    requires N > 0 && group >= 0
  {
    if group >= N || !Sends(L, N, group) then OnDevice(t)
    else if group < sent then OnHost(t.key, t.key.shape)
    else if pass.Backward? then OnDevice(Returned(t))
    else OnDevice(t)
  }

  // `sent`: the groups whose host copies exist are those below it.
  ghost predicate StatesHold(L: nat, N: nat, states: map<Tag, State>, s: Schedule, sent: int)
    requires N > 0
  {
    && (forall tag :: tag in states <==> Live(s, tag))
    && (forall tag :: tag in states ==> states[tag] == StateOf(L, N, s.pass, sent, tag.group, TensorAt(s, tag)))
  }

  // `freed`: in the forward pass, the groups whose device buffers are gone.
  ghost predicate BufsHold(N: nat, bufs: map<Tag, Option<Tensor>>, s: Schedule, freed: int) {
    && (forall tag :: tag in bufs <==> Live(s, tag) && tag.group < N)
    && (forall tag :: tag in bufs ==>
          bufs[tag] == if s.pass.Backward? || tag.group < freed then None else Some(TensorAt(s, tag)))
  }

  ghost predicate CopiesHold(L: nat, N: nat, copies: map<int, map<Key, Content>>, s: Schedule, sent: int)
    requires N > 0
  {
    && (forall g :: g in copies <==> 0 <= g < sent)
    && (forall tag :: Known(s, tag) && tag.group in copies && Sends(L, N, tag.group) ==>
          CopyServes(copies[tag.group], TensorAt(s, tag)))
  }

  predicate CopyServes(copies: map<Key, Content>, t: Tensor) {
    t.key in copies && copies[t.key] == Offload(t)
  }

  predicate ScalarsHold(L: nat, N: nat, h: Async, s: Schedule) {
    && h.layers == L && h.groups == N && h.window == WindowMap(L, N)
    && h.current == s.group
    && 0 <= s.group < |s.saves|
    && h.count == (if s.pass.Forward? then |SlotsOf(s.saves[s.group])| else 0)
  }

  ghost predicate Holds(L: nat, N: nat, h: Async, s: Schedule, sent: int, freed: int)
    requires N > 0
  {
    && ScalarsHold(L, N, h, s)
    && StatesHold(L, N, h.states, s, sent)
    && BufsHold(N, h.bufs, s, freed)
    && CopiesHold(L, N, h.copies, s, sent)
  }

  function SentSoFar(L: nat, N: nat, s: Schedule): int
    requires N > 0 && s.group >= 0
  {
    var p := Passed(L, N, s.group);
    if s.pass.Backward? then p else if s.group == 0 then 0 else Min(p + 1, N)
  }

  function OffloadedSoFar(L: nat, N: nat, s: Schedule): int
    requires N > 0 && s.group >= 0
  {
    var p := Passed(L, N, s.group);
    if s.pass.Forward? then p else if s.group == 0 then 0 else Max(1, p)
  }

  function FreedSoFar(L: nat, N: nat, s: Schedule): nat
    requires N > 0 && s.group >= 0
  {
    if s.pass.Backward? then N else Passed(L, N, s.group)
  }

  // The handler is exactly what the schedule says it is.
  ghost predicate Mirrors(L: nat, N: nat, h: Async, s: Schedule)
    requires N > 0
  {
    && s.group >= 0
    && Holds(L, N, h, s, SentSoFar(L, N, s), FreedSoFar(L, N, s))
    && h.offloaded == OffloadedSoFar(L, N, s)
  }

  predicate HandleFor(s: Schedule, slot: Tag, handle: Handle)
    requires 0 <= slot.group < |s.saves| && slot.index < |s.saves[slot.group]|
  {
    var saves := s.saves[slot.group];
    if saves[slot.index].offload then handle == Tagged(Tag(slot.group, Rank(saves, slot.index)))
    else handle == Direct(saves[slot.index].tensor)
  }

  predicate LiveSlot(s: Schedule, slot: Tag) {
    && 0 <= slot.group < |s.saves| && slot.index < |s.saves[slot.group]|
    && (s.pass.Forward? || slot.group < s.group || (slot.group == s.group && slot.index in s.live))
  }

  ghost predicate Packs(packed: map<Tag, Handle>, s: Schedule) {
    forall slot :: LiveSlot(s, slot) ==> slot in packed && HandleFor(s, slot, packed[slot])
  }

  // -------------------------------------------------------------------- forward steps

  // The layer being computed has not been sent, nor freed.
  lemma {:induction false} CurrentGroupIsHeld(L: nat, N: nat, s: Schedule)
    requires 1 <= N <= L && s.pass.Forward? && 0 <= s.group < L
    ensures s.group < N && Sends(L, N, s.group) ==> s.group >= SentSoFar(L, N, s)
    ensures Passed(L, N, s.group) <= s.group
  {
    PassedIsWindowCount(L, N, s.group);
  }

  lemma {:induction false} PushKnows(s: Schedule, s': Schedule, save: Save, tag: Tag)
    requires 0 <= s.group < |s.saves|
    requires s' == s.(saves := s.saves[s.group := s.saves[s.group] + [save]])
    ensures Known(s', tag) <==> Known(s, tag) || (save.offload && tag == Tag(s.group, |SlotsOf(s.saves[s.group])|))
    ensures Known(s, tag) ==> TensorAt(s', tag) == TensorAt(s, tag)
    ensures save.offload && tag == Tag(s.group, |SlotsOf(s.saves[s.group])|) ==> TensorAt(s', tag) == save.tensor
  {
    SlotsOfAppend(s.saves[s.group], save);
  }

  // s' is s with one more tensor saved in the current group.
  ghost predicate OneMore(s: Schedule, save: Save, s': Schedule) {
    && 0 <= s.group < |s.saves|
    && s' == s.(saves := s.saves[s.group := s.saves[s.group] + [save]])
    && |SlotsOf(s'.saves[s.group])| == |SlotsOf(s.saves[s.group])| + (if save.offload then 1 else 0)
    && (forall tag :: Known(s', tag) <==> Known(s, tag) || (save.offload && tag == Tag(s.group, |SlotsOf(s.saves[s.group])|)))
    && (forall tag :: Known(s, tag) ==> TensorAt(s', tag) == TensorAt(s, tag))
    && (save.offload ==> TensorAt(s', Tag(s.group, |SlotsOf(s.saves[s.group])|)) == save.tensor)
  }

  lemma {:induction false} PushIsOneMore(s: Schedule, save: Save, s': Schedule)
    requires 0 <= s.group < |s.saves|
    requires s' == s.(saves := s.saves[s.group := s.saves[s.group] + [save]])
    ensures OneMore(s, save, s')
  {
    SlotsOfAppend(s.saves[s.group], save);
    forall tag
      ensures Known(s', tag) <==> Known(s, tag) || (save.offload && tag == Tag(s.group, |SlotsOf(s.saves[s.group])|))
      ensures Known(s, tag) ==> TensorAt(s', tag) == TensorAt(s, tag)
    {
      PushKnows(s, s', save, tag);
    }
    if save.offload {
      PushKnows(s, s', save, Tag(s.group, |SlotsOf(s.saves[s.group])|));
    }
  }

  lemma {:induction false} PushStates(L: nat, N: nat, h: Async, s: Schedule, save: Save, s': Schedule, sent: int)
    requires N > 0 && s.pass.Forward? && ScalarsHold(L, N, h, s) && StatesHold(L, N, h.states, s, sent)
    requires s.group < N && Sends(L, N, s.group) ==> s.group >= sent
    requires OneMore(s, save, s')
    ensures AsyncPush(h, save).Some?
    ensures StatesHold(L, N, AsyncPush(h, save).value.0.states, s', sent)
  {
    var tag := Tag(s.group, |SlotsOf(s.saves[s.group])|);
    assert !Known(s, tag) && !Live(s, tag);
    assert StateOf(L, N, Forward, sent, s.group, save.tensor) == OnDevice(save.tensor);
    hide TensorAt, Known, Live, SlotsOf, StateOf, Sends, OneMore;
    OneMoreState(L, N, h.states, s, save, s', sent, tag);
  }

  lemma {:induction false} OneMoreState(L: nat, N: nat, states: map<Tag, State>, s: Schedule, save: Save, s': Schedule, sent: int,
                                        tag: Tag)
    requires N > 0 && s.pass.Forward? && StatesHold(L, N, states, s, sent) && OneMore(s, save, s')
    requires tag == Tag(s.group, |SlotsOf(s.saves[s.group])|)
    requires StateOf(L, N, Forward, sent, s.group, save.tensor) == OnDevice(save.tensor)
    ensures StatesHold(L, N, if save.offload then states[tag := OnDevice(save.tensor)] else states, s', sent)
  {
    LiveIsKnown(s);
    LiveIsKnown(s');
    hide TensorAt, Known, Live, SlotsOf, StateOf, Sends;
  }

  lemma {:induction false} LiveIsKnown(s: Schedule)
    ensures forall t :: Live(s, t) ==> Known(s, t)
    ensures s.pass.Forward? ==> forall t :: Live(s, t) <==> Known(s, t)
  {
  }

  lemma {:induction false} PushBufs(L: nat, N: nat, h: Async, s: Schedule, save: Save, s': Schedule, freed: int)
    requires N > 0 && s.pass.Forward? && ScalarsHold(L, N, h, s) && BufsHold(N, h.bufs, s, freed)
    requires freed <= s.group
    requires OneMore(s, save, s')
    requires AsyncPush(h, save).Some?
    ensures BufsHold(N, AsyncPush(h, save).value.0.bufs, s', freed)
  {
    hide TensorAt, Known, SlotsOf;
  }

  lemma {:induction false} PushCopies(L: nat, N: nat, copies: map<int, map<Key, Content>>, s: Schedule, save: Save, s': Schedule, sent: int)
    requires N > 0 && s.pass.Forward? && CopiesHold(L, N, copies, s, sent)
    requires 0 <= s.group && (s.group < N && Sends(L, N, s.group) ==> s.group >= sent)
    requires sent <= N
    requires OneMore(s, save, s')
    ensures CopiesHold(L, N, copies, s', sent)
  {
    hide TensorAt, Known, SlotsOf;
  }

  lemma {:induction false} PushHolds(L: nat, N: nat, h: Async, s: Schedule, save: Save, s': Schedule, sent: int, freed: int)
    requires N > 0 && s.pass.Forward? && Holds(L, N, h, s, sent, freed)
    requires s.group < N && Sends(L, N, s.group) ==> s.group >= sent
    requires freed <= s.group && sent <= N
    requires OneMore(s, save, s')
    ensures AsyncPush(h, save).Some?
    ensures Holds(L, N, AsyncPush(h, save).value.0, s', sent, freed)
  {
    hide StatesHold, BufsHold, CopiesHold, TensorAt, Known, SlotsOf;
    PushStates(L, N, h, s, save, s', sent);
    PushBufs(L, N, h, s, save, s', freed);
    PushCopies(L, N, h.copies, s, save, s', sent);
  }

  lemma {:induction false} HoldsScalars(L: nat, N: nat, h: Async, s: Schedule, sent: int, freed: int)
    requires N > 0 && Holds(L, N, h, s, sent, freed)
    ensures ScalarsHold(L, N, h, s)
  {
  }

  lemma {:induction false} PushedHandle(L: nat, N: nat, h: Async, s: Schedule, save: Save, s': Schedule)
    requires s.pass.Forward? && ScalarsHold(L, N, h, s) && AsyncPush(h, save).Some?
    requires s' == s.(saves := s.saves[s.group := s.saves[s.group] + [save]])
    ensures HandleFor(s', Tag(s.group, |s.saves[s.group]|), AsyncPush(h, save).value.1)
  {
    assert s'.saves[s.group][..|s.saves[s.group]|] == s.saves[s.group];
  }

  lemma {:induction false} PushStep(L: nat, N: nat, h: Async, s: Schedule, e: Event)
    requires 1 <= N <= L && WellFormed(L, s) && Mirrors(L, N, h, s)
    requires e.Push? && Legal(L, s, e)
    ensures AsyncPush(h, e.save).Some?
    ensures Mirrors(L, N, AsyncPush(h, e.save).value.0, Next(L, s, e))
    ensures HandleFor(Next(L, s, e), e.slot, AsyncPush(h, e.save).value.1)
  {
    hide Holds, ScalarsHold, Window, OneMore, TensorAt, Known, CoherentSaves, HandleFor, SlotsOf;
    CurrentGroupIsHeld(L, N, s);
    var s' := Next(L, s, e);
    PushIsOneMore(s, e.save, s');
    PushHolds(L, N, h, s, e.save, s', SentSoFar(L, N, s), Passed(L, N, s.group));
    HoldsScalars(L, N, h, s, SentSoFar(L, N, s), Passed(L, N, s.group));
    PushedHandle(L, N, h, s, e.save, s');
  }

  // ------------------------------------------------------------------ bulk offload

  lemma {:induction false} SavesAreCoherent(L: nat, N: nat, states: map<Tag, State>, s: Schedule, sent: int, g: int)
    requires N > 0 && StatesHold(L, N, states, s, sent) && s.pass.Forward?
    requires 0 <= g < |s.saves| ==> CoherentSaves(s.saves[g])
    ensures CoherentGroup(states, g)
  {
    hide Sends, StatesHold, Known, TensorAt, CoherentSaves, SlotsOf;
    forall tag, tag', key | HeldUnder(states, g, key, tag) && HeldUnder(states, g, key, tag')
      ensures states[tag].tensor == states[tag'].tensor
    {
      HeldIsSaved(L, N, states, s, sent, tag);
      HeldIsSaved(L, N, states, s, sent, tag');
      SavesCoherent(s, tag, tag');
    }
  }

  lemma {:induction false} HeldIsSaved(L: nat, N: nat, states: map<Tag, State>, s: Schedule, sent: int, tag: Tag)
    requires N > 0 && StatesHold(L, N, states, s, sent) && s.pass.Forward?
    requires tag in states && states[tag].OnDevice?
    ensures 0 <= tag.group < |s.saves| && Known(s, tag) && states[tag].tensor == TensorAt(s, tag)
  {
    hide Sends, TensorAt;
  }

  lemma {:induction false} SavesCoherent(s: Schedule, tag: Tag, tag': Tag)
    requires Known(s, tag) && Known(s, tag') && tag.group == tag'.group && CoherentSaves(s.saves[tag.group])
    ensures TensorAt(s, tag).key == TensorAt(s, tag').key ==> TensorAt(s, tag) == TensorAt(s, tag')
  {
    var slots := SlotsOf(s.saves[tag.group]);
    assert Coherent(s.saves[tag.group][slots[tag.index]], s.saves[tag.group][slots[tag'.index]]);
  }

  lemma {:induction false} SendStates(L: nat, N: nat, states: map<Tag, State>, s: Schedule, g: nat)
    requires 0 <= g < N && s.pass.Forward? && |s.saves| == s.group + 1
    requires Sends(L, N, g) <==> g <= s.group
    requires StatesHold(L, N, states, s, g)
    ensures GroupOnDevice(states, g)
    ensures StatesHold(L, N, SendAway(states, g), s, g + 1)
  {
    hide Sends, TensorAt;
  }

  lemma {:induction false} SendCopy(states: map<Tag, State>, g: int, tag: Tag, t: Tensor)
    requires GroupOnDevice(states, g) && CoherentGroup(states, g)
    requires tag in states && tag.group == g && states[tag] == OnDevice(t)
    ensures CopyServes(GroupCopies(states, g), t)
  {
    assert HeldUnder(states, g, t.key, tag);
    assert t.key in GroupKeys(states, g);
    KeyHasHolder(states, g, t.key);
  }

  lemma {:induction false} SendCopyOf(L: nat, N: nat, states: map<Tag, State>, s: Schedule, g: nat, tag: Tag)
    requires 0 <= g < N && s.pass.Forward? && GroupOnDevice(states, g) && CoherentGroup(states, g)
    requires StatesHold(L, N, states, s, g) && Known(s, tag) && tag.group == g
    ensures CopyServes(GroupCopies(states, g), TensorAt(s, tag))
  {
    hide Sends, SlotsOf, GroupCopies, CoherentGroup, CopyServes;
    assert Live(s, tag);
    SendCopy(states, g, tag, TensorAt(s, tag));
  }

  lemma {:induction false} SendCopies(L: nat, N: nat, states: map<Tag, State>, copies: map<int, map<Key, Content>>, s: Schedule, g: nat)
    requires 0 <= g < N && s.pass.Forward? && GroupOnDevice(states, g)
    requires StatesHold(L, N, states, s, g) && CopiesHold(L, N, copies, s, g)
    requires CoherentGroup(states, g)
    ensures CopiesHold(L, N, copies[g := GroupCopies(states, g)], s, g + 1)
  {
    hide Sends, StatesHold, GroupCopies, CoherentGroup, CopyServes, GroupOnDevice, TensorAt, Known;
    forall tag | Known(s, tag) && tag.group == g ensures CopyServes(GroupCopies(states, g), TensorAt(s, tag)) {
      SendCopyOf(L, N, states, s, g, tag);
    }
  }

  lemma {:induction false} OffloadHolds(L: nat, N: nat, h: Async, s: Schedule, g: nat, freed: int)
    requires 0 <= g < N && s.pass.Forward? && |s.saves| == s.group + 1
    requires Sends(L, N, g) <==> g <= s.group
    requires g < |s.saves| ==> CoherentSaves(s.saves[g])
    requires Holds(L, N, h, s, g, freed)
    ensures BulkOffload(h, g).Some?
    ensures Holds(L, N, BulkOffload(h, g).value, s, g + 1, freed)
    ensures BulkOffload(h, g).value.offloaded == h.offloaded
  {
    hide StatesHold, BufsHold, CopiesHold, Sends, GroupCopies, SendAway, CoherentGroup, CoherentSaves, GroupOnDevice;
    SavesAreCoherent(L, N, h.states, s, g, g);
    SendStates(L, N, h.states, s, g);
    SendCopies(L, N, h.states, h.copies, s, g);
  }

  // ------------------------------------------------------------------ forward commit

  lemma {:induction false} FreeHolds(L: nat, N: nat, h: Async, s: Schedule, sent: int, p: nat)
    requires N > 0 && s.pass.Forward? && Holds(L, N, h, s, sent, p)
    ensures Holds(L, N, h.(bufs := FreeBufs(h.bufs, p)), s, sent, p + 1)
  {
    hide StatesHold, CopiesHold, TensorAt, Sends;
  }

  // The two schedules hand out the same tags for the same tensors.
  ghost predicate SameTags(s: Schedule, s': Schedule) {
    && (forall tag :: Known(s, tag) <==> Known(s', tag))
    && (forall tag :: Known(s, tag) ==> TensorAt(s, tag) == TensorAt(s', tag))
    && (forall tag :: Live(s, tag) <==> Live(s', tag))
  }

  // At the end of the forward pass everything has been sent and freed, so that the same
  // handler also describes the start of the backward pass.
  lemma {:induction false} Transfer(L: nat, N: nat, h: Async, s: Schedule, s': Schedule, sent: int, freed: int)
    requires N > 0 && Holds(L, N, h, s, sent, freed) && SameTags(s, s')
    requires s.pass == s'.pass || (s'.pass.Backward? && sent >= N && freed >= N)
    ensures StatesHold(L, N, h.states, s', sent)
    ensures BufsHold(N, h.bufs, s', freed)
    ensures CopiesHold(L, N, h.copies, s', sent)
  {
    hide Sends, SlotsOf, TensorAt;
    if s.pass != s'.pass {
      forall tag | Live(s, tag)
        ensures StateOf(L, N, s'.pass, sent, tag.group, TensorAt(s, tag)) == StateOf(L, N, s.pass, sent, tag.group, TensorAt(s, tag)) {
      }
    }
    hide StateOf, Live, Known;
  }

  lemma {:induction false} NextGroupHolds(L: nat, N: nat, h: Async, s: Schedule, s': Schedule, sent: int, freed: int)
    requires N > 0 && s.pass.Forward? && Holds(L, N, h, s, sent, freed) && |s.saves| == s.group + 1
    requires s' == s.(group := s.group + 1, saves := s.saves + [[]])
    ensures Holds(L, N, NextGroup(h), s', sent, freed)
  {
    hide StatesHold, BufsHold, CopiesHold, Sends;
    assert SameTags(s, s');
    Transfer(L, N, h, s, s', sent, freed);
  }

  // When the windows reach layer c, the group to send next has been filled unless the
  // schedule never sends it.
  lemma {:induction false} SendSchedule(L: nat, N: nat, c: nat)
    requires 1 <= N <= L && c < L
    ensures Passed(L, N, c) < N
    ensures Sends(L, N, 0)
    ensures var p := Passed(L, N, c); Window(L, N, p) == c ==> (Sends(L, N, p + 1) <==> p + 1 <= c)
  {
    PassedIsWindowCount(L, N, c);
    WindowLast(L, N);
  }

  lemma {:induction false} OffloadedIsFree(L: nat, N: nat, h: Async, s: Schedule, sent: int, freed: int, n: int)
    requires N > 0 && Holds(L, N, h, s, sent, freed)
    ensures Holds(L, N, h.(offloaded := n), s, sent, freed)
  {
    hide StatesHold, BufsHold, CopiesHold;
  }

  // If a window closes after layer c, its group's buffers go and the next group is sent.
  lemma {:induction false} CloseWindowStep(L: nat, N: nat, h: Async, s: Schedule)
    requires 1 <= N <= L && WellFormed(L, s) && Legal(L, s, CommitForward)
    requires h.offloaded == Passed(L, N, s.group)
    requires Holds(L, N, h, s, Min(h.offloaded + 1, N), h.offloaded)
    ensures CloseWindow(h).Some?
    ensures Mirrors(L, N, CloseWindow(h).value, Next(L, s, CommitForward))
  {
    hide Holds, Window, CoherentSaves, Sends, BulkOffload, FreeBufs;
    var c, p, s' := s.group, h.offloaded, Next(L, s, CommitForward);
    SendSchedule(L, N, c);
    HoldsScalars(L, N, h, s, Min(p + 1, N), p);
    assert h.window[p] == Window(L, N, p);
    if Window(L, N, p) == c {
      var freed := h.(bufs := FreeBufs(h.bufs, p));
      FreeHolds(L, N, h, s, Min(p + 1, N), p);
      var h' := freed;
      if p < N - 1 {
        OffloadHolds(L, N, freed, s, p + 1, p + 1);
        h' := BulkOffload(freed, p + 1).value;
      }
      OffloadedIsFree(L, N, h', s, Min(p + 2, N), p + 1, p + 1);
      NextGroupHolds(L, N, h'.(offloaded := p + 1), s, s', Min(p + 2, N), p + 1);
    } else {
      NextGroupHolds(L, N, h, s, s', Min(p + 1, N), p);
    }
  }

  lemma {:induction false} CommitForwardStep(L: nat, N: nat, h: Async, s: Schedule)
    requires 1 <= N <= L && WellFormed(L, s) && Mirrors(L, N, h, s)
    requires Legal(L, s, CommitForward)
    ensures AsyncCommitForward(h).Some?
    ensures Mirrors(L, N, AsyncCommitForward(h).value, Next(L, s, CommitForward))
  {
    hide Holds, CoherentSaves, Window, Sends, BulkOffload, CloseWindow;
    HoldsScalars(L, N, h, s, SentSoFar(L, N, s), Passed(L, N, s.group));
    if s.group == 0 {
      SendSchedule(L, N, 0);
      OffloadHolds(L, N, h, s, 0, 0);
      CloseWindowStep(L, N, BulkOffload(h, 0).value, s);
    } else {
      CloseWindowStep(L, N, h, s);
    }
  }

  // ------------------------------------------------------------------ backward steps

  // The backward pass of layer c before any of its tensors is taken back.
  function Entered(s: Schedule): Schedule
    requires 0 < s.group <= |s.saves|
  {
    Schedule(Backward, s.group - 1, s.saves, AllSlots(s.saves[s.group - 1]))
  }

  lemma {:induction false} EnterHolds(L: nat, N: nat, h: Async, s: Schedule, sent: int)
    requires N > 0 && WellFormed(L, s) && Legal(L, s, CommitBackward)
    requires Holds(L, N, h, s, sent, N)
    requires s.pass.Forward? ==> sent >= N
    ensures Holds(L, N, h.(current := h.current - 1), Entered(s), sent, N)
  {
    hide Sends, CoherentSaves;
    var s' := Entered(s);
    assert SameTags(s, s') by {
      forall tag ensures Live(s, tag) <==> Live(s', tag) {
      }
    }
    hide StatesHold, BufsHold, CopiesHold, Live, Known, TensorAt;
    Transfer(L, N, h, s, s', sent, N);
  }

  lemma {:induction false} ReturnStates(L: nat, N: nat, h: Async, s: Schedule, g: nat)
    requires g < N && s.pass.Backward? && g <= s.group && Holds(L, N, h, s, g + 1, N)
    requires s.live == AllSlots(s.saves[s.group])
    ensures CopiesServe(h.states, g, h.copies[g])
    ensures StatesHold(L, N, BringBack(h.states, g, h.copies[g]), s, g)
  {
    hide Sends, TensorAt, BufsHold;
    assert forall tag :: Live(s, tag) && tag.group == g && Sends(L, N, g) ==>
      CopyServes(h.copies[g], TensorAt(s, tag));
    hide Known, SlotsOf, CopiesHold, Live;
  }

  lemma {:induction false} ReloadHolds(L: nat, N: nat, h: Async, s: Schedule, g: nat)
    requires g < N && s.pass.Backward? && g <= s.group && Holds(L, N, h, s, g + 1, N)
    requires s.live == AllSlots(s.saves[s.group])
    ensures BulkReload(h, g).Some? && BulkReload(h, g).value.offloaded == h.offloaded
    ensures Holds(L, N, BulkReload(h, g).value, s, g, N)
  {
    ReturnStates(L, N, h, s, g);
    hide Sends, TensorAt, StatesHold, BringBack, CopiesServe, Known, Live;
  }

  // Taking the last tensor of group 0 back leaves the handler as it was built.
  lemma {:induction false} SettleHolds(L: nat, N: nat, h: Async, s: Schedule)
    requires 1 <= N <= L && s.pass.Backward? && s.group >= 0
    requires Mirrors(L, N, h, s)
    ensures Mirrors(L, N, h, Settle(s))
    ensures Settle(s) == START ==> h == AsyncInit(L, N)
  {
    hide Window, Sends;
    if s.group == 0 && s.live == {} {
      assert forall tag :: !Live(s, tag);
      assert forall tag :: !Known(START, tag);
      hide Live, Known, StateOf, TensorAt;
      assert Passed(L, N, 0) == 0 && SentSoFar(L, N, s) == 0;
      assert forall g :: g !in h.copies;
      assert forall tag :: tag !in h.states && tag !in h.bufs;
      assert h.states == map[] && h.bufs == map[] && h.copies == map[];
    }
  }

  lemma {:induction false} CommitBackwardStep(L: nat, N: nat, h: Async, s: Schedule)
    requires 1 <= N <= L && WellFormed(L, s) && Mirrors(L, N, h, s)
    requires Legal(L, s, CommitBackward)
    ensures AsyncCommitBackward(h).Some?
    ensures Mirrors(L, N, AsyncCommitBackward(h).value, Next(L, s, CommitBackward))
  {
    hide Holds, CoherentSaves, Window, Sends, BulkReload;
    var c, s' := s.group - 1, Entered(s);
    var p, p' := Passed(L, N, c), Passed(L, N, c + 1);
    PassedIsWindowCount(L, N, c);
    PassedIsWindowCount(L, N, c + 1);
    PassedAll(L, N);
    EnterHolds(L, N, h, s, p');
    var entered := h.(current := h.current - 1);
    HoldsScalars(L, N, entered, s', p', N);
    assert h.offloaded == Max(1, p');
    assert entered.window[h.offloaded - 1] == Window(L, N, h.offloaded - 1);
    assert Window(L, N, h.offloaded - 1) == c <==> p' == p + 1;
    var r := entered;
    if p' == p + 1 {
      ReloadHolds(L, N, entered, s', p);
      r := BulkReload(entered, p).value;
    }
    var n := if c == 0 then 0 else Max(1, p);
    HoldsScalars(L, N, r, s', p, N);
    OffloadedIsFree(L, N, r, s', p, N, n);
    assert Mirrors(L, N, r.(offloaded := n), s');
    SettleHolds(L, N, r.(offloaded := n), s');
    assert AsyncCommitBackward(h) == Some(r.(offloaded := n));
  }

  // The schedule after the tensor at place k of the current group is taken back.
  function Taken(s: Schedule, k: nat): Schedule {
    s.(live := s.live - {k})
  }

  lemma {:induction false} TakenTags(s: Schedule, k: nat)
    requires s.pass.Backward? && 0 <= s.group < |s.saves| && k in s.live && k < |s.saves[s.group]|
    ensures forall tag :: Live(Taken(s, k), tag) <==>
      Live(s, tag) && !(s.saves[s.group][k].offload && tag == Tag(s.group, Rank(s.saves[s.group], k)))
    ensures forall tag :: Known(Taken(s, k), tag) <==> Known(s, tag)
    ensures forall tag :: Known(s, tag) ==> TensorAt(Taken(s, k), tag) == TensorAt(s, tag)
  {
    var saves := s.saves[s.group];
    if saves[k].offload {
      RankIsSlotIndex(saves, k);
    }
    hide TensorAt;
  }

  // s' is s without one live tag.
  ghost predicate Without(s: Schedule, s': Schedule, tag: Tag) {
    && s.pass.Backward? && s'.pass.Backward?
    && (forall t :: Live(s', t) <==> Live(s, t) && t != tag)
    && (forall t :: Known(s', t) <==> Known(s, t))
    && (forall t :: Known(s, t) ==> TensorAt(s', t) == TensorAt(s, t))
  }

  lemma {:induction false} TakeState(L: nat, N: nat, states: map<Tag, State>, s: Schedule, s': Schedule, tag: Tag, sent: int)
    requires N > 0 && Without(s, s', tag) && StatesHold(L, N, states, s, sent)
    ensures StatesHold(L, N, states - {tag}, s', sent)
  {
    LiveIsKnown(s);
    hide Sends, TensorAt, StateOf, Known, Live;
  }

  lemma {:induction false} TakeBuf(N: nat, bufs: map<Tag, Option<Tensor>>, s: Schedule, s': Schedule, tag: Tag)
    requires Without(s, s', tag) && BufsHold(N, bufs, s, N)
    ensures BufsHold(N, bufs - {tag}, s', N)
  {
    LiveIsKnown(s);
    hide TensorAt, Known, Live;
  }

  lemma {:induction false} TakeCopies(L: nat, N: nat, copies: map<int, map<Key, Content>>, s: Schedule, s': Schedule, tag: Tag, sent: int)
    requires N > 0 && Without(s, s', tag) && CopiesHold(L, N, copies, s, sent)
    ensures CopiesHold(L, N, copies, s', sent)
  {
    hide Sends, TensorAt, Known, Live, CopyServes;
  }

  lemma {:induction false} TakeTag(L: nat, N: nat, h: Async, s: Schedule, s': Schedule, tag: Tag, sent: int)
    requires N > 0 && Without(s, s', tag) && Holds(L, N, h, s, sent, N)
    ensures StatesHold(L, N, h.states - {tag}, s', sent)
    ensures BufsHold(N, h.bufs - {tag}, s', N)
    ensures CopiesHold(L, N, h.copies, s', sent)
  {
    hide Without, StatesHold, BufsHold, CopiesHold;
    TakeState(L, N, h.states, s, s', tag, sent);
    TakeBuf(N, h.bufs, s, s', tag);
    TakeCopies(L, N, h.copies, s, s', tag, sent);
  }

  lemma {:induction false} PopHolds(L: nat, N: nat, h: Async, s: Schedule, k: nat, sent: int)
    requires N > 0 && s.pass.Backward? && 0 <= s.group < |s.saves| && k in s.live && k < |s.saves[s.group]|
    requires Holds(L, N, h, s, sent, N) && sent <= s.group && s.saves[s.group][k].offload
    ensures var popped := AsyncPop(h, Tag(s.group, Rank(s.saves[s.group], k)));
      && popped.Some?
      && Holds(L, N, popped.value.0, Taken(s, k), sent, N)
      && popped.value.0.offloaded == h.offloaded
      && Shown(popped.value.1) == Shown(s.saves[s.group][k].tensor)
  {
    var saves := s.saves[s.group];
    var tag := Tag(s.group, Rank(saves, k));
    RankIsSlotIndex(saves, k);
    TakenTags(s, k);
    assert Live(s, tag) && TensorAt(s, tag) == saves[k].tensor;
    hide Sends, SlotsOf, TensorAt, Live, Known, Rank, BufsHold, CopiesHold;
    assert h.states[tag] == StateOf(L, N, s.pass, sent, s.group, saves[k].tensor);
    TakeTag(L, N, h, s, Taken(s, k), tag, sent);
    hide StatesHold;
  }

  lemma {:induction false} DirectHolds(L: nat, N: nat, h: Async, s: Schedule, k: nat, sent: int)
    requires N > 0 && s.pass.Backward? && 0 <= s.group < |s.saves| && k in s.live && k < |s.saves[s.group]|
    requires Holds(L, N, h, s, sent, N) && !s.saves[s.group][k].offload
    ensures Holds(L, N, h, Taken(s, k), sent, N)
  {
    hide StatesHold, BufsHold, CopiesHold, TensorAt, Sends;
    TakenTags(s, k);
    Transfer(L, N, h, s, Taken(s, k), sent, N);
  }

  lemma {:induction false} PopStep(L: nat, N: nat, r: AsyncRun, s: Schedule, e: Event)
    requires 1 <= N <= L && WellFormed(L, s) && Mirrors(L, N, r.handler, s) && Packs(r.packed, s)
    requires e.Pop? && Legal(L, s, e)
    ensures AsyncStep(r, e).Some?
    ensures Mirrors(L, N, AsyncStep(r, e).value.0.handler, Next(L, s, e))
    ensures AsyncStep(r, e).value.1 == Expected(L, s, e)
  {
    hide Holds, CoherentSaves, Window, Sends, AsyncPop, Rank;
    var k := e.slot.index;
    PassedIsWindowCount(L, N, s.group);
    assert LiveSlot(s, e.slot);
    if s.saves[s.group][k].offload {
      PopHolds(L, N, r.handler, s, k, Passed(L, N, s.group));
    } else {
      DirectHolds(L, N, r.handler, s, k, Passed(L, N, s.group));
    }
    SettleHolds(L, N, AsyncStep(r, e).value.0.handler, Taken(s, k));
  }

  lemma {:induction false} PacksStep(L: nat, packed: map<Tag, Handle>, packed': map<Tag, Handle>, s: Schedule, e: Event)
    requires WellFormed(L, s) && Packs(packed, s) && Legal(L, s, e)
    requires e.Push? ==> e.slot in packed' && packed' == packed[e.slot := packed'[e.slot]]
    requires e.Push? ==> HandleFor(Next(L, s, e), e.slot, packed'[e.slot])
    requires e.Pop? ==> packed' == packed - {e.slot}
    requires e.CommitForward? || e.CommitBackward? ==> packed' == packed
    ensures Packs(packed', Next(L, s, e))
  {
    hide CoherentSaves, SlotsOf;
    var s' := Next(L, s, e);
    if s' != START {
      forall slot | LiveSlot(s', slot) ensures slot in packed' && HandleFor(s', slot, packed'[slot]) {
        if e.Push? && slot != e.slot {
          assert s'.saves[slot.group][..slot.index] == s.saves[slot.group][..slot.index];
        }
      }
    }
  }
}
