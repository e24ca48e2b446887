// The two group offload handlers of swift/callbacks/activation_cpu_offload.py as
// functions on their state.  None stands for a failed assertion or a missing key.
module OffloadModel {
  import opened Options
  import opened OffloadWindow

  // _get_unique_tensor_key (lines 21-24): the identity of a view.
  datatype Key = Key(device: int, address: int, dtype: int, shape: seq<nat>, stride: seq<int>)

  // A device tensor; `data` lists its elements in view order.
  datatype Tensor = Tensor(key: Key, data: seq<int>)

  // What offload (lines 189-212) keeps of a tensor: its device, and its elements on the host.
  datatype Content = Content(device: int, dtype: int, shape: seq<nat>, data: seq<int>)

  function Offload(t: Tensor): Content {
    Content(t.key.device, t.key.dtype, t.key.shape, t.data)
  }

  // reload (lines 214-220): a new contiguous tensor.  Where it lands, and its strides,
  // are never read again and are not part of this model.
  function Reload(copy: Content): Tensor {
    Tensor(Key(copy.device, 0, copy.dtype, copy.shape, []), copy.data)
  }

  function View(t: Tensor, shape: seq<nat>): Tensor {
    t.(key := t.key.(shape := shape))
  }

  datatype Tag = Tag(group: int, index: nat)

  // What tensor_push returns: a tag, or the tensor itself when it is not to be offloaded.
  datatype Handle = Tagged(tag: Tag) | Direct(tensor: Tensor)

  // A tensor together with the verdict of the handler's checker.
  datatype Save = Save(tensor: Tensor, offload: bool)

  // ---------------------------------------------------------------- synchronous handler

  datatype SyncState = Kept(tensor: Tensor) | Copied(copy: Content)

  datatype Sync = Sync(groups: nat, current: int, count: nat, states: map<Tag, SyncState>)

  function SyncInit(N: nat): Sync {
    Sync(N, 0, 0, map[])
  }

  function SyncPush(h: Sync, s: Save): Option<(Sync, Handle)> {
    var tag := Tag(h.current, h.count);
    if tag in h.states then None
    else
      var state := if h.current < h.groups && s.offload then Copied(Offload(s.tensor)) else Kept(s.tensor);
      Some((h.(count := h.count + 1, states := h.states[tag := state]), Tagged(tag)))
  }

  function SyncPop(h: Sync, tag: Tag): Option<(Sync, Tensor)> {
    if tag !in h.states then None
    else
      var t := match h.states[tag] case Copied(copy) => Reload(copy) case Kept(tensor) => tensor;
      Some((h.(states := h.states - {tag}), t))
  }

  function SyncCommitForward(h: Sync): Sync {
    h.(current := h.current + 1, count := 0)
  }

  function SyncCommitBackward(h: Sync): Option<Sync> {
    if h.current - 1 < 0 then None else Some(h.(current := h.current - 1))
  }

  // --------------------------------------------------------------- asynchronous handler

  // tensor_tag_to_state: a device tensor, or the key and shape of one that was sent away.
  datatype State = OnDevice(tensor: Tensor) | OnHost(key: Key, shape: seq<nat>)

  datatype Async = Async(
    layers: nat,
    groups: nat,
    window: map<int, int>,
    current: int,
    count: nat,
    states: map<Tag, State>,
    bufs: map<Tag, Option<Tensor>>,
    copies: map<int, map<Key, Content>>,
    offloaded: int)

  function AsyncInit(L: nat, N: nat): Async {
    Async(L, N, WindowMap(L, N), 0, 0, map[], map[], map[], 0)
  }

  function AsyncPush(h: Async, s: Save): Option<(Async, Handle)> {
    var tag := Tag(h.current, h.count);
    if !s.offload then Some((h, Direct(s.tensor)))
    else if tag in h.states then None
    else
      var bufs := if h.current < h.groups then h.bufs[tag := Some(s.tensor)] else h.bufs;
      Some((h.(count := h.count + 1, states := h.states[tag := OnDevice(s.tensor)], bufs := bufs), Tagged(tag)))
  }

  function AsyncPop(h: Async, tag: Tag): Option<(Async, Tensor)> {
    if tag !in h.states || h.states[tag].OnHost? then None
    else Some((h.(states := h.states - {tag}, bufs := h.bufs - {tag}), h.states[tag].tensor))
  }

  predicate GroupOnDevice(states: map<Tag, State>, g: int) {
    forall tag :: tag in states && tag.group == g ==> states[tag].OnDevice?
  }

  function GroupKeys(states: map<Tag, State>, g: int): set<Key>
    requires GroupOnDevice(states, g)
  {
    set tag | tag in states && tag.group == g :: states[tag].tensor.key
  }

  ghost predicate HeldUnder(states: map<Tag, State>, g: int, key: Key, tag: Tag) {
    tag in states && tag.group == g && states[tag].OnDevice? && states[tag].tensor.key == key
  }

  lemma {:induction false} KeyHasHolder(states: map<Tag, State>, g: int, key: Key)
    requires GroupOnDevice(states, g) && key in GroupKeys(states, g)
    ensures exists tag :: HeldUnder(states, g, key, tag)
  {
    var tag :| tag in states && tag.group == g && states[tag].tensor.key == key;
    assert HeldUnder(states, g, key, tag);
  }

  // Live tensors with one key are views of the same memory.
  ghost predicate CoherentGroup(states: map<Tag, State>, g: int) {
    forall tag, tag', key :: HeldUnder(states, g, key, tag) && HeldUnder(states, g, key, tag') ==>
      states[tag].tensor == states[tag'].tensor
  }

  // One host copy per distinct view.  Tensors with one key show the same memory, so it does
  // not matter which of them is copied.
  ghost function GroupCopies(states: map<Tag, State>, g: int): map<Key, Content>
    requires GroupOnDevice(states, g)
  {
    map key | key in GroupKeys(states, g) ::
      KeyHasHolder(states, g, key);
      var tag :| HeldUnder(states, g, key, tag);
      Offload(states[tag].tensor)
  }

  function SendAway(states: map<Tag, State>, g: int): map<Tag, State>
    requires GroupOnDevice(states, g)
  {
    map tag | tag in states ::
      if tag.group == g then OnHost(states[tag].tensor.key, states[tag].tensor.key.shape) else states[tag]
  }

  // bulk_offload_group (lines 325-344)
  ghost function BulkOffload(h: Async, g: int): Option<Async> {
    if !GroupOnDevice(h.states, g) then None
    else Some(h.(states := SendAway(h.states, g), copies := h.copies[g := GroupCopies(h.states, g)]))
  }

  function FreeBufs(bufs: map<Tag, Option<Tensor>>, g: int): map<Tag, Option<Tensor>> {
    map tag | tag in bufs :: if tag.group == g then None else bufs[tag]
  }

  // on_group_commit_forward (lines 346-379)
  ghost function AsyncCommitForward(h: Async): Option<Async> {
    var started := if h.current == 0 then BulkOffload(h, 0) else Some(h);
    if started.None? then None else CloseWindow(started.value)
  }

  ghost function CloseWindow(h: Async): Option<Async> {
    if h.offloaded !in h.window then None
    else if h.window[h.offloaded] != h.current then Some(NextGroup(h))
    else
      var freed := h.(bufs := FreeBufs(h.bufs, h.offloaded));
      var sent := if freed.offloaded < freed.groups - 1 then BulkOffload(freed, freed.offloaded + 1) else Some(freed);
      if sent.None? then None
      else Some(NextGroup(sent.value.(offloaded := sent.value.offloaded + 1)))
  }

  function NextGroup(h: Async): Async {
    h.(current := h.current + 1, count := 0)
  }

  predicate CopiesServe(states: map<Tag, State>, g: int, copies: map<Key, Content>) {
    forall tag :: tag in states && tag.group == g && states[tag].OnHost? ==> states[tag].key in copies
  }

  function BringBack(states: map<Tag, State>, g: int, copies: map<Key, Content>): map<Tag, State>
    requires CopiesServe(states, g, copies)
  {
    map tag | tag in states ::
      if tag.group == g && states[tag].OnHost? then OnDevice(View(Reload(copies[states[tag].key]), states[tag].shape))
      else states[tag]
  }

  // bulk_reload_group (lines 381-398)
  function BulkReload(h: Async, g: int): Option<Async> {
    if g >= h.groups || g !in h.copies || !CopiesServe(h.states, g, h.copies[g]) then None
    else Some(h.(states := BringBack(h.states, g, h.copies[g]), copies := h.copies - {g}))
  }

  // on_group_commit_backward (lines 400-422)
  function AsyncCommitBackward(h: Async): Option<Async> {
    var entered := h.(current := h.current - 1);
    if entered.current < 0 || entered.offloaded - 1 !in entered.window then None
    else
      var reloaded :=
        if entered.window[entered.offloaded - 1] != entered.current then Some(entered)
        else
          match BulkReload(entered, entered.offloaded - 1)
          case None => None
          case Some(r) => Some(r.(offloaded := if r.offloaded > 1 then r.offloaded - 1 else r.offloaded));
      match reloaded
      case None => None
      case Some(r) => Some(if r.current == 0 then r.(offloaded := 0) else r)
  }
}
