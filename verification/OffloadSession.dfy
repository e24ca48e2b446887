// What autograd does to an offload handler, over any number of training steps: a forward
// pass saves any tensors layer by layer and commits after each layer; the backward pass
// commits in reverse and takes every saved tensor of the layer back, in any order.
module OffloadSession {
  import opened Options
  import opened OffloadModel

  // A saved tensor is known to autograd by its place: the group and its position there.
  datatype Event =
    | Push(slot: Tag, save: Save)
    | CommitForward
    | CommitBackward
    | Pop(slot: Tag)

  // What a reader of a tensor that is taken back sees: everything but where it lives.
  datatype Output = Quiet | Loaded(device: int, dtype: int, shape: seq<nat>, data: seq<int>)

  function Shown(t: Tensor): Output {
    Loaded(t.key.device, t.key.dtype, t.key.shape, t.data)
  }

  // ------------------------------------------------------------------- the reference
  // The schedule just remembers what was saved.

  datatype Pass = Forward | Backward

  datatype Schedule = Schedule(pass: Pass, group: int, saves: seq<seq<Save>>, live: set<nat>)

  const START := Schedule(Forward, 0, [[]], {})

  // Two tensors with one key are views of the same memory, so they show the same data.
  predicate Coherent(a: Save, b: Save) {
    a.tensor.key == b.tensor.key ==> a.tensor.data == b.tensor.data
  }

  predicate CoherentSaves(saves: seq<Save>) {
    forall i, j :: 0 <= i < |saves| && 0 <= j < |saves| ==> Coherent(saves[i], saves[j])
  }

  predicate WellFormed(L: nat, s: Schedule) {
    && (s.pass.Forward? ==> 0 <= s.group <= L && |s.saves| == s.group + 1 && (s.group == L ==> s.saves[L] == []))
    && (s.pass.Backward? ==> 0 <= s.group < L && |s.saves| == L + 1 && s.saves[L] == [])
    && (s.pass.Backward? ==> forall k :: k in s.live ==> k < |s.saves[s.group]|)
    && (forall g {:trigger s.saves[g]} :: 0 <= g < |s.saves| ==> CoherentSaves(s.saves[g]))
  }

  predicate Legal(L: nat, s: Schedule, e: Event)
    requires WellFormed(L, s)
  {
    match e
    case Push(slot, save) =>
      && s.pass.Forward? && s.group < L
      && slot == Tag(s.group, |s.saves[s.group]|)
      && CoherentSaves(s.saves[s.group] + [save])
    case CommitForward => s.pass.Forward? && s.group < L
    case CommitBackward =>
      if s.pass.Forward? then s.group == L && L > 0 else s.live == {} && s.group > 0
    case Pop(slot) => s.pass.Backward? && slot.group == s.group && slot.index in s.live
  }

  // A training step is over when the last tensor of group 0 has been taken back.
  function Settle(s: Schedule): Schedule {
    if s.group == 0 && s.live == {} then START else s
  }

  function AllSlots(saves: seq<Save>): set<nat> {
    set k: nat {:trigger saves[k]} | k < |saves|
  }

  function Next(L: nat, s: Schedule, e: Event): (r: Schedule)
    requires WellFormed(L, s) && Legal(L, s, e)
    ensures WellFormed(L, r)
  {
    match e
    case Push(_, save) => s.(saves := s.saves[s.group := s.saves[s.group] + [save]])
    case CommitForward => s.(group := s.group + 1, saves := s.saves + [[]])
    case CommitBackward =>
      Settle(Schedule(Backward, s.group - 1, s.saves, AllSlots(s.saves[s.group - 1])))
    case Pop(slot) => Settle(s.(live := s.live - {slot.index}))
  }

  function Expected(L: nat, s: Schedule, e: Event): Output
    requires WellFormed(L, s) && Legal(L, s, e)
  {
    if e.Pop? then Shown(s.saves[s.group][e.slot.index].tensor) else Quiet
  }

  predicate LegalRun(L: nat, s: Schedule, events: seq<Event>)
    requires WellFormed(L, s)
    decreases |events|
  {
    events == [] || (Legal(L, s, events[0]) && LegalRun(L, Next(L, s, events[0]), events[1..]))
  }

  function ExpectedOutputs(L: nat, s: Schedule, events: seq<Event>): seq<Output>
    requires WellFormed(L, s) && LegalRun(L, s, events)
    decreases |events|
  {
    if events == [] then []
    else [Expected(L, s, events[0])] + ExpectedOutputs(L, Next(L, s, events[0]), events[1..])
  }

  function After(L: nat, s: Schedule, events: seq<Event>): (r: Schedule)
    requires WellFormed(L, s) && LegalRun(L, s, events)
    ensures WellFormed(L, r)
    decreases |events|
  {
    if events == [] then s else After(L, Next(L, s, events[0]), events[1..])
  }

  // ---------------------------------------------------------------- the two handlers
  // `packed` is what autograd keeps for each saved tensor: whatever tensor_push returned.

  datatype AsyncRun = AsyncRun(handler: Async, packed: map<Tag, Handle>)

  ghost function AsyncStep(r: AsyncRun, e: Event): Option<(AsyncRun, Output)> {
    match e
    case Push(slot, save) => (
      match AsyncPush(r.handler, save)
      case None => None
      case Some((h, handle)) => Some((AsyncRun(h, r.packed[slot := handle]), Quiet)))
    case CommitForward => (
      match AsyncCommitForward(r.handler)
      case None => None
      case Some(h) => Some((r.(handler := h), Quiet)))
    case CommitBackward => (
      match AsyncCommitBackward(r.handler)
      case None => None
      case Some(h) => Some((r.(handler := h), Quiet)))
    case Pop(slot) =>
      if slot !in r.packed then None
      else if r.packed[slot].Direct? then
        Some((r.(packed := r.packed - {slot}), Shown(r.packed[slot].tensor)))
      else
        match AsyncPop(r.handler, r.packed[slot].tag)
        case None => None
        case Some((h, t)) => Some((AsyncRun(h, r.packed - {slot}), Shown(t)))
  }

  ghost function RunAsync(r: AsyncRun, events: seq<Event>): Option<(AsyncRun, seq<Output>)>
    decreases |events|
  {
    if events == [] then Some((r, []))
    else
      match AsyncStep(r, events[0])
      case None => None
      case Some((r', out)) =>
        match RunAsync(r', events[1..])
        case None => None
        case Some((r'', outs)) => Some((r'', [out] + outs))
  }

  datatype SyncRun = SyncRun(handler: Sync, packed: map<Tag, Handle>)

  function SyncStep(r: SyncRun, e: Event): Option<(SyncRun, Output)> {
    match e
    case Push(slot, save) => (
      match SyncPush(r.handler, save)
      case None => None
      case Some((h, handle)) => Some((SyncRun(h, r.packed[slot := handle]), Quiet)))
    case CommitForward => Some((r.(handler := SyncCommitForward(r.handler)), Quiet))
    case CommitBackward => (
      match SyncCommitBackward(r.handler)
      case None => None
      case Some(h) => Some((r.(handler := h), Quiet)))
    case Pop(slot) =>
      if slot !in r.packed || r.packed[slot].Direct? then None
      else
        match SyncPop(r.handler, r.packed[slot].tag)
        case None => None
        case Some((h, t)) => Some((SyncRun(h, r.packed - {slot}), Shown(t)))
  }

  function RunSync(r: SyncRun, events: seq<Event>): Option<(SyncRun, seq<Output>)>
    decreases |events|
  {
    if events == [] then Some((r, []))
    else
      match SyncStep(r, events[0])
      case None => None
      case Some((r', out)) =>
        match RunSync(r', events[1..])
        case None => None
        case Some((r'', outs)) => Some((r'', [out] + outs))
  }
}
