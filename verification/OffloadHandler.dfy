// The handlers as the objects they are: each method changes the fields the way the state
// functions of OffloadModel say.  Replay drives an asynchronous handler through a training
// run.  Stream synchronisation is not part of this model.
module OffloadHandler {
  import opened Options
  import opened OffloadWindow
  import opened OffloadModel
  import opened OffloadSession
  import opened OffloadProofs
  import opened OffloadTheorems
  import opened OffloadContents
  import opened Sequences

  class SynchronizedGroupOffloadHandler {
    const numOffloadGroup: nat
    var currentGroup: int
    var tensorCountCurrentGroup: nat
    var tensorTagToState: map<Tag, SyncState>

    ghost function Abs(): Sync
      reads this
    {
      Sync(numOffloadGroup, currentGroup, tensorCountCurrentGroup, tensorTagToState)
    }

    constructor (numOffloadGroup: nat)
      ensures Abs() == SyncInit(numOffloadGroup)
    {
      this.numOffloadGroup := numOffloadGroup;
      currentGroup, tensorCountCurrentGroup, tensorTagToState := 0, 0, map[];
    }

    method OnGroupCommitForward()
      modifies this
      ensures Abs() == SyncCommitForward(old(Abs()))
    {
      currentGroup := currentGroup + 1;
      tensorCountCurrentGroup := 0;
    }

    method OnGroupCommitBackward()
      requires SyncCommitBackward(Abs()).Some?
      modifies this
      ensures Some(Abs()) == SyncCommitBackward(old(Abs()))
    {
      currentGroup := currentGroup - 1;
      assert currentGroup >= 0;
    }

    method TensorPush(save: Save) returns (handle: Handle)
      requires SyncPush(Abs(), save).Some?
      modifies this
      ensures Some((Abs(), handle)) == SyncPush(old(Abs()), save)
    {
      var tag := Tag(currentGroup, tensorCountCurrentGroup);
      tensorCountCurrentGroup := tensorCountCurrentGroup + 1;
      assert tag !in tensorTagToState;
      if currentGroup < numOffloadGroup && save.offload {
        tensorTagToState := tensorTagToState[tag := Copied(Offload(save.tensor))];
      } else {
        tensorTagToState := tensorTagToState[tag := Kept(save.tensor)];
      }
      handle := Tagged(tag);
    }

    method TensorPop(tag: Tag) returns (tensor: Tensor)
      requires SyncPop(Abs(), tag).Some?
      modifies this
      ensures Some((Abs(), tensor)) == SyncPop(old(Abs()), tag)
    {
      assert tag in tensorTagToState;
      var state := tensorTagToState[tag];
      tensorTagToState := tensorTagToState - {tag};
      if state.Copied? {
        tensor := Reload(state.copy);
      } else {
        tensor := state.tensor;
      }
    }
  }

  class AsyncDoubleBufferGroupOffloadHandler {
    const numOffloadGroup: nat
    const numLayers: nat
    var currentGroup: int
    var tensorCountCurrentGroup: nat
    var tensorTagToState: map<Tag, State>
    var tensorTagToBuf: map<Tag, Option<Tensor>>
    var offloadedGroupCount: int
    var layerWindowMap: map<int, int>
    var groupOffloadMapping: map<int, map<Key, Content>>

    ghost function Abs(): Async
      reads this
    {
      Async(numLayers, numOffloadGroup, layerWindowMap, currentGroup, tensorCountCurrentGroup,
        tensorTagToState, tensorTagToBuf, groupOffloadMapping, offloadedGroupCount)
    }

    constructor (numOffloadGroup: nat, numModelGroup: nat)
      ensures Abs() == AsyncInit(numModelGroup, numOffloadGroup)
    {
      this.numOffloadGroup, numLayers := numOffloadGroup, numModelGroup;
      currentGroup, tensorCountCurrentGroup, offloadedGroupCount := 0, 0, 0;
      tensorTagToState, tensorTagToBuf, groupOffloadMapping := map[], map[], map[];
      new;
      layerWindowMap := BuildWindowMap(numModelGroup, numOffloadGroup);
    }

    method TensorPush(save: Save) returns (handle: Handle)
      requires AsyncPush(Abs(), save).Some?
      modifies this
      ensures Some((Abs(), handle)) == AsyncPush(old(Abs()), save)
    {
      if save.offload {
        var tag := Tag(currentGroup, tensorCountCurrentGroup);
        tensorCountCurrentGroup := tensorCountCurrentGroup + 1;
        assert tag !in tensorTagToState;
        tensorTagToState := tensorTagToState[tag := OnDevice(save.tensor)];
        if currentGroup < numOffloadGroup {
          tensorTagToBuf := tensorTagToBuf[tag := Some(save.tensor)];
        }
        handle := Tagged(tag);
      } else {
        handle := Direct(save.tensor);
      }
    }

    method TensorPop(handle: Handle) returns (tensor: Tensor)
      requires handle.Tagged? ==> AsyncPop(Abs(), handle.tag).Some?
      modifies this
      ensures handle.Direct? ==> tensor == handle.tensor && Abs() == old(Abs())
      ensures handle.Tagged? ==> Some((Abs(), tensor)) == AsyncPop(old(Abs()), handle.tag)
    {
      if handle.Direct? {
        return handle.tensor;
      }
      assert handle.tag in tensorTagToState;
      var state := tensorTagToState[handle.tag];
      tensorTagToState := tensorTagToState - {handle.tag};
      tensorTagToBuf := tensorTagToBuf - {handle.tag};
      assert !state.OnHost?;
      tensor := state.tensor;
    }

    // The walk over the tag dictionary, in any order: one view per key is noted, and every
    // tensor of the group is replaced by its key and shape.
    static method NoteViews(states: map<Tag, State>, group: int)
        returns (sent: map<Tag, State>, views: map<Key, Tensor>)
      requires GroupOnDevice(states, group)
      ensures sent == SendAway(states, group)
      ensures views.Keys == GroupKeys(states, group)
      ensures forall key :: key in views ==>
                exists tag :: HeldUnder(states, group, key, tag) && views[key] == states[tag].tensor
    {
      sent, views := states, map[];
      var away := SendAway(states, group);
      var todo := states.Keys;
      while todo != {}
        invariant todo <= states.Keys && sent.Keys == states.Keys
        invariant forall tag :: tag in states ==> sent[tag] == if tag in todo then states[tag] else away[tag]
        invariant forall key :: key in views ==>
          exists tag :: HeldUnder(states, group, key, tag) && views[key] == states[tag].tensor
        invariant forall tag :: tag in states && tag !in todo && tag.group == group ==>
          states[tag].tensor.key in views
        decreases |todo|
      {
        var tag :| tag in todo;
        todo := todo - {tag};
        if tag.group == group {
          var tensor := states[tag].tensor;
          assert HeldUnder(states, group, tensor.key, tag);
          if tensor.key !in views {
            views := views[tensor.key := tensor];
          }
          sent := sent[tag := OnHost(tensor.key, tensor.key.shape)];
        }
      }
    }

    static method CopyViews(views: map<Key, Tensor>) returns (copies: map<Key, Content>)
      ensures copies == map key | key in views :: Offload(views[key])
    {
      copies := map[];
      var keys := views.Keys;
      while keys != {}
        invariant keys <= views.Keys
        invariant copies == map key | key in views && key !in keys :: Offload(views[key])
        decreases |keys|
      {
        var key :| key in keys;
        keys := keys - {key};
        copies := copies[key := Offload(views[key])];
      }
    }

    method BulkOffloadGroup(groupToOffload: int)
      requires GroupOnDevice(tensorTagToState, groupToOffload) && CoherentGroup(tensorTagToState, groupToOffload)
      modifies this
      ensures Some(Abs()) == BulkOffload(old(Abs()), groupToOffload)
    {
      var sent, views := NoteViews(tensorTagToState, groupToOffload);
      var copies := CopyViews(views);
      CopiesOfViews(tensorTagToState, groupToOffload, views);
      tensorTagToState := sent;
      groupOffloadMapping := groupOffloadMapping[groupToOffload := copies];
    }

    method OnGroupCommitForward()
      requires AsyncCommitForward(Abs()).Some?
      requires forall g :: CoherentGroup(tensorTagToState, g)
      modifies this
      ensures Some(Abs()) == AsyncCommitForward(old(Abs()))
    {
      SynchronizeOnGroupCommitForward(currentGroup);
      currentGroup := currentGroup + 1;
      tensorCountCurrentGroup := 0;
    }

    method SynchronizeOnGroupCommitForward(current: int)
      requires current == currentGroup && AsyncCommitForward(Abs()).Some?
      requires forall g :: CoherentGroup(tensorTagToState, g)
      modifies this
      ensures Some(NextGroup(Abs())) == AsyncCommitForward(old(Abs()))
    {
      hide SendAway, GroupCopies, CoherentGroup, FreeBufs, GroupOnDevice;
      if current == 0 {
        BulkOffloadGroup(current);
        SendAwayCoherent(old(tensorTagToState), current);
      }
      if layerWindowMap[offloadedGroupCount] == current {
        tensorTagToBuf := FreeBufs(tensorTagToBuf, offloadedGroupCount);
        if offloadedGroupCount < numOffloadGroup - 1 {
          BulkOffloadGroup(offloadedGroupCount + 1);
        }
        offloadedGroupCount := offloadedGroupCount + 1;
      }
    }

    static method RestoreGroup(states: map<Tag, State>, group: int, tensors: map<Key, Tensor>, ghost copies: map<Key, Content>)
        returns (restored: map<Tag, State>)
      requires tensors == map key | key in copies :: Reload(copies[key])
      requires CopiesServe(states, group, copies)
      ensures restored == BringBack(states, group, copies)
    {
      restored := states;
      ghost var back := BringBack(states, group, copies);
      var todo := states.Keys;
      while todo != {}
        invariant todo <= states.Keys && restored.Keys == states.Keys
        invariant forall tag :: tag in states ==> restored[tag] == if tag in todo then states[tag] else back[tag]
        decreases |todo|
      {
        var tag :| tag in todo;
        todo := todo - {tag};
        if tag.group == group && !states[tag].OnDevice? {
          restored := restored[tag := OnDevice(View(tensors[states[tag].key], states[tag].shape))];
        }
      }
    }

    method BulkReloadGroup(groupToReload: int)
      requires BulkReload(Abs(), groupToReload).Some?
      modifies this
      ensures Some(Abs()) == BulkReload(old(Abs()), groupToReload)
    {
      assert groupToReload < numOffloadGroup;
      var copies := groupOffloadMapping[groupToReload];
      groupOffloadMapping := groupOffloadMapping - {groupToReload};
      var tensors := map key | key in copies :: Reload(copies[key]);
      tensorTagToState := RestoreGroup(tensorTagToState, groupToReload, tensors, copies);
    }

    method OnGroupCommitBackward()
      requires AsyncCommitBackward(Abs()).Some?
      modifies this
      ensures Some(Abs()) == AsyncCommitBackward(old(Abs()))
    {
      currentGroup := currentGroup - 1;
      assert currentGroup >= 0;
      if layerWindowMap[offloadedGroupCount - 1] == currentGroup {
        BulkReloadGroup(offloadedGroupCount - 1);
        offloadedGroupCount := if offloadedGroupCount > 1 then offloadedGroupCount - 1 else offloadedGroupCount;
      }
      if currentGroup == 0 {
        offloadedGroupCount := 0;
      }
    }
  }

  // With coherent views it does not matter which one of them was noted.
  lemma {:induction false} CopiesOfViews(states: map<Tag, State>, group: int, views: map<Key, Tensor>)
    requires GroupOnDevice(states, group) && CoherentGroup(states, group)
    requires views.Keys == GroupKeys(states, group)
    requires forall key :: key in views ==>
               exists tag :: HeldUnder(states, group, key, tag) && views[key] == states[tag].tensor
    ensures GroupCopies(states, group) == map key | key in views :: Offload(views[key])
  {
    forall key | key in views ensures GroupCopies(states, group)[key] == Offload(views[key]) {
      KeyHasHolder(states, group, key);
    }
  }

  lemma {:induction false} SendAwayCoherent(states: map<Tag, State>, g: int)
    requires GroupOnDevice(states, g)
    requires forall k :: CoherentGroup(states, k)
    ensures forall k :: CoherentGroup(SendAway(states, g), k)
  {
    var sent := SendAway(states, g);
    forall k, tag, tag', key | HeldUnder(sent, k, key, tag) && HeldUnder(sent, k, key, tag')
      ensures sent[tag].tensor == sent[tag'].tensor
    {
      assert CoherentGroup(states, k);
      assert HeldUnder(states, k, key, tag) && HeldUnder(states, k, key, tag');
    }
  }

  // One event of a training run, carried out on the object.
  method Perform(h: AsyncDoubleBufferGroupOffloadHandler, packed: map<Tag, Handle>, e: Event, ghost s: Schedule)
      returns (packed': map<Tag, Handle>, output: Output)
    requires 1 <= h.numOffloadGroup <= h.numLayers
    requires Tracks(h.numLayers, h.numOffloadGroup, AsyncRun(h.Abs(), packed), s) && Legal(h.numLayers, s, e)
    modifies h
    ensures Some((AsyncRun(h.Abs(), packed'), output)) == AsyncStep(AsyncRun(old(h.Abs()), packed), e)
  {
    ghost var L, N := h.numLayers, h.numOffloadGroup;
    AsyncStepTracks(L, N, AsyncRun(h.Abs(), packed), s, e);
    packed', output := packed, Quiet;
    match e {
      case Push(slot, save) =>
        var handle := h.TensorPush(save);
        packed' := packed[slot := handle];
      case CommitForward =>
        forall g ensures CoherentGroup(h.tensorTagToState, g) {
          TracksCoherent(L, N, AsyncRun(h.Abs(), packed), s, g);
        }
        h.OnGroupCommitForward();
      case CommitBackward =>
        h.OnGroupCommitBackward();
      case Pop(slot) =>
        var tensor := h.TensorPop(packed[slot]);
        packed' := packed - {slot};
        output := Shown(tensor);
    }
  }

  lemma {:induction false} TracksCoherent(L: nat, N: nat, r: AsyncRun, s: Schedule, g: int)
    requires 1 <= N <= L && Tracks(L, N, r, s) && s.pass.Forward?
    ensures CoherentGroup(r.handler.states, g)
  {
    hide BufsHold, CopiesHold, StatesHold, Window, Packs;
    SavesAreCoherent(L, N, r.handler.states, s, SentSoFar(L, N, s), g);
  }

  // Any number of training steps on a fresh handler: what is taken back is what was saved.
  method Replay(numOffloadGroup: nat, numModelGroup: nat, events: seq<Event>) returns (outputs: seq<Output>)
    requires 1 <= numOffloadGroup <= numModelGroup && LegalRun(numModelGroup, START, events)
    ensures outputs == ExpectedOutputs(numModelGroup, START, events) && AllGivenBack(events, outputs)
  {
    RunGivesBack(numModelGroup, events);
    hide AllGivenBack;
    var h := new AsyncDoubleBufferGroupOffloadHandler(numOffloadGroup, numModelGroup);
    var packed: map<Tag, Handle> := map[];
    ghost var s := START;
    ghost var all := ExpectedOutputs(numModelGroup, START, events);
    outputs := [];
    InitMirrors(numModelGroup, numOffloadGroup);
    NoSlotPacks();
    assert Tracks(numModelGroup, numOffloadGroup, AsyncRun(h.Abs(), packed), s);
    assert events[0..] == events && [] + all == all;
    hide Tracks, AsyncStep, WellFormed, Legal, LegalRun, Next, Expected, ExpectedOutputs;
    for i := 0 to |events|
      invariant h.numLayers == numModelGroup && h.numOffloadGroup == numOffloadGroup
      invariant fresh(h) && WellFormed(numModelGroup, s)
      invariant Tracks(numModelGroup, numOffloadGroup, AsyncRun(h.Abs(), packed), s)
      invariant LegalRun(numModelGroup, s, events[i..])
      invariant outputs + ExpectedOutputs(numModelGroup, s, events[i..]) == all
    {
      OneEvent(numModelGroup, s, events, i);
      AsyncStepTracks(numModelGroup, numOffloadGroup, AsyncRun(h.Abs(), packed), s, events[i]);
      var output;
      packed, output := Perform(h, packed, events[i], s);
      ghost var s' := Next(numModelGroup, s, events[i]);
      Associate(outputs, [output], ExpectedOutputs(numModelGroup, s', events[i + 1..]));
      outputs := outputs + [output];
      s := s';
    }
    NoMoreEvents(numModelGroup, s, events);
    assert outputs + [] == outputs;
  }

  lemma {:induction false} OneEvent(L: nat, s: Schedule, events: seq<Event>, i: nat)
    requires i < |events| && WellFormed(L, s) && LegalRun(L, s, events[i..])
    ensures Legal(L, s, events[i]) && WellFormed(L, Next(L, s, events[i]))
    ensures LegalRun(L, Next(L, s, events[i]), events[i + 1..])
    ensures ExpectedOutputs(L, s, events[i..]) ==
      [Expected(L, s, events[i])] + ExpectedOutputs(L, Next(L, s, events[i]), events[i + 1..])
  {
    hide Next, Expected, Legal;
    assert events[i..][0] == events[i] && events[i..][1..] == events[i + 1..];
  }

  lemma {:induction false} NoMoreEvents(L: nat, s: Schedule, events: seq<Event>)
    requires WellFormed(L, s)
    ensures LegalRun(L, s, events[|events|..]) && ExpectedOutputs(L, s, events[|events|..]) == []
  {
  }
}
