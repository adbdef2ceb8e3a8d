/** `AudioSessionEventHandler`: the per-session callbacks. Each one that
    acts first checks the handler's `_item`; once the close action has
    cleared it, every callback is a no-op. */
module SessionEvents {
  import opened Adjuster

  /** `AudioSessionState`. */
  datatype SessionState = Inactive | Active | Expired

  /** True while the handler's `_item` is set. */
  predicate HasItem(a: State, h: ItemId) {
    h !in a.detached
  }

  /** `OnChannelVolumeChanged`. */
  function OnChannelVolumeChanged(a: State, h: ItemId): (r: State)
    ensures r.(queue := a.queue) == a
    ensures r.queue == a.queue + (if HasItem(a, h) then [NotifyVolume(h)] else [])
  {
    if !HasItem(a, h) then a
    else a.(queue := a.queue + [NotifyVolume(h)])
  }

  /** `OnVolumeChanged`: the volume and the mute flag are renotified together. */
  function OnVolumeChanged(a: State, h: ItemId): (r: State)
    ensures r.(queue := a.queue) == a
    ensures r.queue == a.queue + (if HasItem(a, h) then [NotifyVolumeAndMute(h)] else [])
  {
    if !HasItem(a, h) then a
    else a.(queue := a.queue + [NotifyVolumeAndMute(h)])
  }

  /** `CloseSession`. */
  function CloseSession(a: State, h: ItemId): (r: State)
    ensures r.(queue := a.queue) == a
    ensures r.queue == a.queue + (if HasItem(a, h) then [Close(h)] else [])
  {
    if !HasItem(a, h) then a
    else a.(queue := a.queue + [Close(h)])
  }

  /** `OnSessionDisconnected`, for any reason. */
  function OnSessionDisconnected(a: State, h: ItemId): (r: State)
    ensures r.(queue := a.queue) == a
    ensures r.queue == a.queue + (if HasItem(a, h) then [Close(h)] else [])
  {
    CloseSession(a, h)
  }

  /** `OnStateChanged`: only expiry closes the session. */
  function OnStateChanged(a: State, h: ItemId, state: SessionState): (r: State)
    ensures state != Expired ==> r == a
  {
    if state == Expired then CloseSession(a, h) else a
  }
}
