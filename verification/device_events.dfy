/** `DeviceNotificationHandler`: the endpoint callbacks. Only a state change
    of the tracked device and a change of the default render/multimedia
    device do anything. */
module DeviceEvents {
  import opened Adjuster

  /** `DeviceState`. */
  datatype DeviceState = DeviceActive | DeviceDisabled | DeviceNotPresent | DeviceUnplugged

  /** `DataFlow`. */
  datatype DataFlow = Render | Capture | AllFlows

  /** `Role`. */
  datatype Role = Console | Multimedia | Communications

  /** `OnDeviceStateChanged`: the tracked device leaving the active state
      unbinds, returning to it binds. */
  function OnDeviceStateChanged(a: State, id: string, state: DeviceState): (r: State)
    ensures r.items == a.items && r.objects == a.objects && r.detached == a.detached
    ensures r.enumerator == a.enumerator && r.nextId == a.nextId && r.halted == a.halted
    ensures id != DevId(a) ==> r == a
    ensures id == DevId(a) && state != DeviceActive ==> r == DeviceUninit(a)
    ensures id == DevId(a) && state == DeviceActive ==> r == DeviceInit(a)
  {
    if id == DevId(a) && state != DeviceActive then DeviceUninit(a)
    else if id == DevId(a) && state == DeviceActive then DeviceInit(a)
    else a
  }

  /** `OnDefaultDeviceChanged`: unbind, then bind again, for the render
      flow in the multimedia role. */
  function OnDefaultDeviceChanged(a: State, flow: DataFlow, role: Role, id: string): (r: State)
    ensures r.items == a.items && r.objects == a.objects && r.detached == a.detached
    ensures r.enumerator == a.enumerator && r.nextId == a.nextId && r.halted == a.halted
    ensures !(flow == Render && role == Multimedia) ==> r == a
  {
    if flow == Render && role == Multimedia then DeviceInit(DeviceUninit(a)) else a
  }
}
