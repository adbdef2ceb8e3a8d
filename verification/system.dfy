/** The whole program as one transition system: every callback the audio
    subsystem can deliver, every call the user interface can make, and the
    dispatcher running the oldest posted action are each one `Step`. After
    an exception has ended the process nothing happens any more. */
module AdjusterSystem {
  import opened Wrappers
  import opened VolumeItems
  import opened Adjuster
  import opened SessionEvents
  import opened DeviceEvents

  datatype Event =
    // IMMNotificationClient
    | DeviceAdded(deviceId: string)
    | DeviceRemoved(deviceId: string)
    | DeviceStateChanged(deviceId: string, deviceState: DeviceState)
    | DefaultDeviceChanged(flow: DataFlow, role: Role, deviceId: string)
    | PropertyValueChanged(deviceId: string)
    // AudioSessionManager.OnSessionCreated
    | SessionCreated(session: Session)
    // IAudioSessionEventsHandler, delivered to handler `handler`
    | ChannelVolumeChanged(handler: ItemId)
    | VolumeChanged(handler: ItemId)
    | SessionDisconnected(handler: ItemId)
    | SessionStateChanged(handler: ItemId, sessionState: SessionState)
    | DisplayNameChanged(handler: ItemId)
    | IconPathChanged(handler: ItemId)
    | GroupingParamChanged(handler: ItemId)
    // the user interface, on item `item`
    | UserSetVolume(item: ItemId, value: int)
    | UserSetMuted(item: ItemId, muted: bool)
    | UserToggleMute(item: ItemId)
    // application shutdown
    | Disposed
    // the dispatcher runs its oldest action; `endpoint` is what the audio
    // subsystem reports at that moment
    | Dispatch(endpoint: Endpoint)

  /** Applies `f` to item `i` of the adjuster. */
  function UpdateItem(a: State, i: ItemId, f: VolumeItem -> VolumeItem): (r: State)
    requires i in a.objects
    ensures r.(objects := a.objects) == a
    ensures r.objects == a.objects[i := f(a.objects[i])]
  {
    a.(objects := a.objects[i := f(a.objects[i])])
  }

  /** One atomic step. Handlers and items are objects of this adjuster: an
      event naming any other identity cannot be delivered and is ignored.
      Device and session callbacks are accepted in every state, also before
      the setup has registered them and after the teardown has unregistered
      them; this over-approximates what the audio subsystem can deliver, so
      every property proved over all runs also holds for the runs in which
      callbacks only arrive while subscribed. Once detached, a handler stays
      detached. */
  function Step(a: State, e: Event, p: Platform): (r: State)
    ensures a.halted ==> r == a
    ensures a.detached <= r.detached
  {
    if a.halted then a
    else
      match e
      case DeviceAdded(_) => a
      case DeviceRemoved(_) => a
      case DeviceStateChanged(id, st) => OnDeviceStateChanged(a, id, st)
      case DefaultDeviceChanged(flow, role, id) => OnDefaultDeviceChanged(a, flow, role, id)
      case PropertyValueChanged(_) => a
      case SessionCreated(s) => OnSessionCreated(a, s)
      case ChannelVolumeChanged(h) => if h in a.objects then OnChannelVolumeChanged(a, h) else a
      case VolumeChanged(h) => if h in a.objects then OnVolumeChanged(a, h) else a
      case SessionDisconnected(h) => if h in a.objects then OnSessionDisconnected(a, h) else a
      case SessionStateChanged(h, st) => if h in a.objects then OnStateChanged(a, h, st) else a
      case DisplayNameChanged(_) => a
      case IconPathChanged(_) => a
      case GroupingParamChanged(_) => a
      case UserSetVolume(i, v) => if i in a.objects then UpdateItem(a, i, item => SetVolumeLevel(item, v)) else a
      case UserSetMuted(i, m) => if i in a.objects then UpdateItem(a, i, item => SetIsMuted(item, m)) else a
      case UserToggleMute(i) => if i in a.objects then UpdateItem(a, i, ToggleMute) else a
      case Disposed => Dispose(a)
      case Dispatch(ep) => RunNext(a, ep, p)
  }

  /** The state after the events `evs`, in order: an ended process stays
      as it is, and no handler is ever attached again. */
  function Run(a: State, evs: seq<Event>, p: Platform): (r: State)
    ensures a.halted ==> r == a
    ensures a.detached <= r.detached
    decreases |evs|
  {
    if evs == [] then a else Run(Step(a, evs[0], p), evs[1..], p)
  }
}
