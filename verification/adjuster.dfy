/** `VolumeAdjuster`: the registry of volume items for the default render
    device. Every entry point is one atomic step over an immutable `State`;
    work the source posts with `Dispatcher.BeginInvoke` is appended to a FIFO
    queue and runs later, one action per step of `RunNext`. */
module Adjuster {
  import opened Wrappers
  import opened VolumeItems

  /** Identity of a `VolumeItem` object. The `AudioSessionEventHandler`
      created for an item is named by the same identity. */
  type ItemId = nat

  /** The byte guard `loc`: 0 unbound, 1 bound, 2 while an `Init` or `Uninit`
      is between its compare-and-swap and its `finally`. */
  const Unbound: int := 0
  const Bound: int := 1
  const Busy: int := 2

  /** Work posted to the dispatcher. */
  datatype Action =
    | Setup                               // posted by DeviceInit
    | Teardown                            // posted by DeviceUninit
    | AddSession(session: Session)        // posted by OnSessionCreated
    | NotifyVolume(handler: ItemId)       // posted by OnChannelVolumeChanged
    | NotifyVolumeAndMute(handler: ItemId) // posted by OnVolumeChanged
    | Close(handler: ItemId)              // posted by CloseSession

  /** What the audio subsystem reports when the setup action runs: the
      default render/multimedia endpoint and its current sessions. */
  datatype Endpoint = Endpoint(defaultDevice: Option<string>, sessions: seq<Session>)

  datatype State = State(
    loc: int,
    enumerator: bool,                // _deviceEnumerator != null (its callback registered)
    device: Option<string>,          // _device, by its ID
    sessionManager: bool,            // _sessionManager != null, OnSessionCreated subscribed
    items: seq<ItemId>,              // _items
    objects: map<ItemId, VolumeItem>, // every VolumeItem created so far
    detached: set<ItemId>,           // handlers whose _item has been set to null
    nextId: nat,                     // identity of the next VolumeItem
    queue: seq<Action>,              // posted and not yet run
    halted: bool)                    // an exception escaped a dispatcher action: the process exited

  /** The fields before the constructor calls `DeviceInit`. */
  const Empty: State := State(Unbound, false, None, false, [], map[], {}, 0, [], false)

  /** `new VolumeAdjuster()`: an empty collection, the guard bound and the
      setup posted, nothing created yet. */
  function Construct(): (r: State)
    ensures r.loc == Bound && r.queue == [Setup]
    ensures !r.enumerator && !r.sessionManager && r.device.None?
    ensures r.items == [] && r.objects == map[] && r.detached == {} && !r.halted
  {
    DeviceInit(Empty)
  }

  /** `DevID`: the device's ID, or the empty string without a device. */
  function DevId(a: State): (r: string)
    ensures a.device.None? ==> r == ""
    ensures a.device.Some? ==> r == a.device.value
  {
    match a.device
    case Some(id) => id
    case None => ""
  }

  /** `DeviceInit`: compare-and-swap `loc` from 0 to 2; an existing enumerator
      returns early (outside the `try`, so `loc` stays 2); otherwise the setup
      is posted and the `finally` stores 1. */
  function DeviceInit(a: State): (r: State)
    ensures r.items == a.items && r.objects == a.objects && r.detached == a.detached
    ensures r.enumerator == a.enumerator && r.nextId == a.nextId && r.halted == a.halted
  {
    if a.loc != Unbound then a
    else if a.enumerator then a.(loc := Busy)
    else a.(loc := Bound, queue := a.queue + [Setup])
  }

  /** `DeviceUninit`: compare-and-swap `loc` from 1 to 2; a missing enumerator
      returns early with `loc` left at 2; otherwise the teardown is posted and
      the `finally` stores 0. */
  function DeviceUninit(a: State): (r: State)
    ensures r.items == a.items && r.objects == a.objects && r.detached == a.detached
    ensures r.enumerator == a.enumerator && r.nextId == a.nextId && r.halted == a.halted
  {
    if a.loc != Bound then a
    else if !a.enumerator then a.(loc := Busy)
    else a.(loc := Unbound, queue := a.queue + [Teardown])
  }

  /** `Dispose`: unbinds through `DeviceUninit`, so the collection and the
      items stay as they are, and only a bound adjuster posts a teardown. */
  function Dispose(a: State): (r: State)
    ensures r.items == a.items && r.objects == a.objects && r.detached == a.detached
    ensures r.enumerator == a.enumerator && r.halted == a.halted
    ensures a.loc != Bound ==> r == a
    ensures a.loc == Bound && a.enumerator ==> r.loc == Unbound && r.queue == a.queue + [Teardown]
    ensures a.loc == Bound && !a.enumerator ==> r == a.(loc := Busy)
  {
    DeviceUninit(a)
  }

  /** `OnSessionCreated`: posts the wrapping of the new session. */
  function OnSessionCreated(a: State, s: Session): (r: State)
    ensures r.(queue := a.queue) == a
    ensures r.queue == a.queue + [AddSession(s)]
  {
    a.(queue := a.queue + [AddSession(s)])
  }

  /** `RemoveItem`: `Collection.Remove` drops the first occurrence only. */
  function RemoveItem(a: State, item: ItemId): (r: State)
    ensures r.(items := a.items) == a
    ensures item !in a.items ==> r == a
    ensures item in a.items ==> |r.items| == |a.items| - 1
  {
    a.(items := RemoveFirst(a.items, item))
  }

  /** Position of the first `x` in `xs`. */
  function FirstIndex<T(==)>(xs: seq<T>, x: T): (k: nat)
    requires x in xs
    ensures k < |xs| && xs[k] == x && x !in xs[..k]
  {
    if xs[0] == x then 0
    else
      var k := 1 + FirstIndex(xs[1..], x);
      assert xs[..k] == [xs[0]] + xs[1..][..k - 1];
      k
  }

  /** `xs` without its first `x`: putting `x` back at that position gives
      `xs` again. */
  function RemoveFirst<T(==)>(xs: seq<T>, x: T): (r: seq<T>)
    ensures x !in xs ==> r == xs
    ensures x in xs ==> |r| == |xs| - 1
    ensures x in xs ==> xs == r[..FirstIndex(xs, x)] + [x] + r[FirstIndex(xs, x)..]
  {
    if x !in xs then xs
    else
      var k := FirstIndex(xs, x);
      var r := xs[..k] + xs[k + 1..];
      assert r[..k] == xs[..k] && r[k..] == xs[k + 1..];
      assert xs == xs[..k] + [x] + xs[k + 1..];
      r
  }

  /** Registers `item`, wrapped from a live session, under a new identity:
      a handler is created for it and registered with its session, and the
      item is appended to the collection. */
  function Attach(a: State, item: VolumeItem): (r: State)
    requires item.session.Some?
    ensures r.items == a.items + [a.nextId] && r.nextId == a.nextId + 1
    ensures a.nextId in r.objects
    ensures r.objects == a.objects[a.nextId := r.objects[a.nextId]]
    ensures r.objects[a.nextId].session == Some(item.session.value.(eventClient := true))
    ensures r.objects[a.nextId].hasHandler
    ensures r.(items := a.items, objects := a.objects, nextId := a.nextId) == a
  {
    var registered := item.(hasHandler := true, session := Some(item.session.value.(eventClient := true)));
    a.(objects := a.objects[a.nextId := registered], items := a.items + [a.nextId], nextId := a.nextId + 1)
  }

  /** True when every session wraps without throwing. */
  predicate AllWrap(sessions: seq<Session>, p: Platform) {
    forall k :: 0 <= k < |sessions| ==> Wrap(sessions[k], p).Ok?
  }

  /** The identities `from`, `from + 1`, ..., `from + n - 1`. */
  function Ids(from: nat, n: nat): (s: seq<nat>)
    ensures |s| == n
    ensures forall k :: 0 <= k < n ==> s[k] == from + k
  {
    if n == 0 then [] else Ids(from, n - 1) + [from + n - 1]
  }

  /** Outcome of wrapping each session: an item, or the exception its
      `SessionControl` setter throws. */
  function WrapAll(sessions: seq<Session>, p: Platform): (ws: seq<Result<VolumeItem, IconError>>)
    ensures |ws| == |sessions|
    ensures forall k :: 0 <= k < |ws| ==> ws[k] == Wrap(sessions[k], p)
    ensures WrappedItems(ws)
  {
    if sessions == [] then [] else [Wrap(sessions[0], p)] + WrapAll(sessions[1..], p)
  }

  /** Every item that did wrap holds its session. */
  predicate WrappedItems(ws: seq<Result<VolumeItem, IconError>>) {
    forall k :: 0 <= k < |ws| && ws[k].Ok? ==> ws[k].value.session.Some?
  }

  /** The body of the setup loop, in order, over the wrapping outcomes: each
      wrapped item is registered and appended; the first exception escapes
      the loop and ends the process. */
  function AddWrapped(a: State, ws: seq<Result<VolumeItem, IconError>>): (r: State)
    requires WrappedItems(ws)
    ensures r.(items := a.items, objects := a.objects, nextId := a.nextId, halted := a.halted) == a
    decreases |ws|
  {
    if ws == [] then a
    else
      match ws[0]
      case Err(_) => a.(halted := true)
      case Ok(item) => AddWrapped(Attach(a, item), ws[1..])
  }

  /** The loop of the setup action: one item per session, in the manager's
      order, under fresh identities. The loop has no `catch`, so a session
      whose wrapping throws ends the process. */
  function AddSessions(a: State, sessions: seq<Session>, p: Platform): (r: State)
    ensures r.(items := a.items, objects := a.objects, nextId := a.nextId, halted := a.halted) == a
  {
    AddWrapped(a, WrapAll(sessions, p))
  }

  /** The action `DeviceInit` posts: create the enumerator, register the
      device callback, take the default render endpoint, take its session
      manager, clear the collection and add one item per session, then
      subscribe to new sessions. NAudio's `GetDefaultAudioEndpoint` turns a
      failing HRESULT into an exception, so with no default endpoint the
      call throws rather than returning null: the null check after it never
      fires, the exception escapes the action and the process ends, with the
      enumerator created and `_device` left as it was. */
  function RunSetup(a: State, ep: Endpoint, p: Platform): (r: State)
    ensures r.enumerator
    ensures ep.defaultDevice.Some? ==> r.device == ep.defaultDevice && r.sessionManager
    ensures r.loc == a.loc && r.queue == a.queue && r.detached == a.detached
    ensures ep.defaultDevice.None? ==> r == a.(enumerator := true, halted := true)
  {
    var started := a.(enumerator := true, device := ep.defaultDevice);
    if ep.defaultDevice.None? then a.(enumerator := true, halted := true)
    else AddSessions(started.(sessionManager := true, items := []), ep.sessions, p)
  }

  /** The action `DeviceUninit` posts: release the session manager, the
      device and the enumerator. The collection is left as it is. */
  function RunTeardown(a: State): (r: State)
    ensures !r.enumerator && r.device.None? && !r.sessionManager
    ensures r.items == a.items && r.objects == a.objects && r.detached == a.detached
    ensures r.(enumerator := a.enumerator, device := a.device, sessionManager := a.sessionManager) == a
  {
    a.(sessionManager := false, device := None, enumerator := false)
  }

  /** The action `OnSessionCreated` posts: wrap, register and append; a
      wrapping that throws is swallowed and changes nothing. */
  function RunAddSession(a: State, s: Session, p: Platform): (r: State)
    ensures Wrap(s, p).Err? ==> r == a
    ensures Wrap(s, p).Ok? ==>
      && r.items == a.items + [a.nextId]
      && a.nextId in r.objects
      && r.objects[a.nextId].session == Some(s.(eventClient := true))
      && r.objects == a.objects[a.nextId := r.objects[a.nextId]]
  {
    match Wrap(s, p)
    case Err(_) => a
    case Ok(item) => Attach(a, item)
  }

  /** The action `CloseSession` posts, for the handler `h`. With its item
      still set: remove the item, unregister the handler from the session,
      clear the item's handler, dispose of and clear its session, and clear
      the handler's item. With the item already cleared, `RemoveItem(null)`
      finds nothing and the next dereference throws into the empty `catch`. */
  function RunClose(a: State, h: ItemId): (r: State)
    requires h in a.objects
    ensures h in a.detached ==> r == a
    ensures h !in a.detached ==> r.items == RemoveFirst(a.items, h) && r.detached == a.detached + {h}
    ensures h !in a.detached ==> h in r.objects && r.objects == a.objects[h := r.objects[h]]
    ensures h !in a.detached ==> r.objects[h].session.None? && !r.objects[h].hasHandler
    ensures h !in a.detached ==>
      r.objects[h].displayName == a.objects[h].displayName && r.objects[h].icon == a.objects[h].icon
    ensures r.(items := a.items, objects := a.objects, detached := a.detached) == a
  {
    if h in a.detached then a
    else
      var cleared := ClearSessionControl(a.objects[h].(hasHandler := false));
      var removed := RemoveItem(a, h);
      removed.(objects := a.objects[h := cleared], detached := a.detached + {h})
  }

  /** A posted notification for handler `h`. The lambda reads the handler's
      `_item` when it runs: once the close action has cleared it, the call
      throws outside any `catch` and the process exits. */
  function RunNotify(a: State, h: ItemId, bothVolumeAndMute: bool): (r: State)
    requires h in a.objects
    ensures h in a.detached ==> r == a.(halted := true)
    ensures h !in a.detached ==> r.(objects := a.objects) == a && r.objects.Keys == a.objects.Keys
  {
    if h in a.detached then a.(halted := true)
    else
      var item := NotifyVolumeChanged(a.objects[h]);
      var notified := if bothVolumeAndMute then NotifyMuteChanged(item) else item;
      a.(objects := a.objects[h := notified])
  }

  /** The handler an action is about, if any. */
  function Target(act: Action): Option<ItemId> {
    match act
    case NotifyVolume(h) => Some(h)
    case NotifyVolumeAndMute(h) => Some(h)
    case Close(h) => Some(h)
    case _ => None
  }

  /** The dispatcher runs the oldest posted action. Only handlers of this
      adjuster post actions, so a target outside `objects` never occurs; it
      is skipped to keep the step total. */
  function RunNext(a: State, ep: Endpoint, p: Platform): (r: State)
    ensures a.queue == [] ==> r == a
    ensures r.loc == a.loc
    ensures a.queue != [] ==> r.queue == a.queue[1..]
    ensures a.queue != [] && a.queue[0].Setup? ==> r.enumerator
    ensures a.queue != [] && a.queue[0].Teardown? ==> !r.enumerator
    ensures a.queue != [] && !a.queue[0].Setup? && !a.queue[0].Teardown? ==> r.enumerator == a.enumerator
    ensures a.detached <= r.detached
  {
    if a.queue == [] then a
    else
      var rest := a.(queue := a.queue[1..]);
      match a.queue[0]
      case Setup => RunSetup(rest, ep, p)
      case Teardown => RunTeardown(rest)
      case AddSession(s) => RunAddSession(rest, s, p)
      case NotifyVolume(h) => if h in rest.objects then RunNotify(rest, h, false) else rest
      case NotifyVolumeAndMute(h) => if h in rest.objects then RunNotify(rest, h, true) else rest
      case Close(h) => if h in rest.objects then RunClose(rest, h) else rest
  }
}
