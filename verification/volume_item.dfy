/** `VolumeItem`: one audio session as the user interface sees it. Volume
    and mute are read from and written to the wrapped session; the display
    name and the icon are resolved once, whenever `SessionControl` is set. */
module VolumeItems {
  import opened Wrappers
  import opened DotNetText
  import opened Int32Text
  import opened WindowsPath
  import opened Utils

  /** `SimpleAudioVolume.Volume`, a float kept abstract: either a value the
      audio subsystem reported, or the `p / 100.0f` this program pushed. */
  datatype Scalar = Reported(raw: nat) | Pushed(percent: int)

  /** A C# `uint`. */
  type UInt32 = n: int | 0 <= n < 0x1_0000_0000

  /** An `AudioSessionControl`: the wrapper of one OS audio session. */
  datatype Session = Session(
    key: nat,                      // identity of the OS session
    processId: UInt32,             // GetProcessID
    displayName: Option<string>,   // DisplayName
    identifier: Option<string>,    // GetSessionIdentifier
    iconPath: Option<string>,      // IconPath
    volume: Scalar,
    muted: bool,
    eventClient: bool)             // an event handler is registered on it

  /** What the item asks the icon loaders for: `LoadExeIcon(path)` or
      `LoadIcon(file, index)` after the location split. */
  datatype IconRef = ExeIcon(exePath: string) | FileIcon(location: IconLocation)

  /** Exceptions icon resolution can throw. */
  datatype IconError = IndexError(cause: ParseError) | ExeIconError

  /** The Windows lookups metadata resolution depends on. */
  datatype Platform = Platform(
    processPath: int -> Option<string>,   // Utils.GetProcessPath
    loadIndirect: IndirectLoader,         // SHLoadIndirectString
    expandEnv: EnvExpander,               // Environment.ExpandEnvironmentVariables
    exeIconThrows: string -> bool)        // Icon.ExtractAssociatedIcon throws for the path

  /** The observable state of a `VolumeItem`. */
  datatype VolumeItem = VolumeItem(
    session: Option<Session>,      // SessionControl
    processPath: Option<string>,
    displayName: Option<string>,
    icon: Option<IconRef>,
    hasHandler: bool,              // _handler != null
    raised: seq<string>)           // PropertyChanged notifications, in order

  /** `new VolumeItem()` before any property is set. */
  const Fresh: VolumeItem := VolumeItem(None, None, None, None, false, [])

  const VolumeLevelName := "VolumeLevel"
  const IsMutedName := "IsMuted"
  const MuteIconName := "MuteIcon"
  const DisplayNameName := "DisplayName"
  const IconName := "Icon"
  const SessionControlName := "SessionControl"

  /** The unchecked cast `(int)` of a `uint`. */
  function ToInt32(n: UInt32): (i: int)
    ensures IsInt32(i)
    ensures i < 0 <==> n > INT32_MAX
    ensures (i - n) % UINT32_LIMIT == 0
  {
    if n <= INT32_MAX then n else n - UINT32_LIMIT
  }

  /** `SessionControl?.DisplayName ?? SessionControl?.GetSessionIdentifier`. */
  function NameCandidate(session: Option<Session>): (r: Option<string>)
    ensures session.None? ==> r.None?
    ensures session.Some? && session.value.displayName.Some? ==> r == session.value.displayName
    ensures session.Some? && session.value.displayName.None? ==> r == session.value.identifier
  {
    match session
    case None => None
    case Some(s) => if s.displayName.Some? then s.displayName else s.identifier
  }

  /** `VolumeItem.ResolveName`: the session's name, resolved as an indirect
      string; else the file name of the process; else `PID: <id>`. */
  function ResolveName(session: Option<Session>, processPath: Option<string>, load: IndirectLoader): (r: string)
    ensures !IsNullOrWhiteSpace(NameCandidate(session)) ==>
      Some(r) == ResolveIndirectString(NameCandidate(session), load)
    ensures IsNullOrWhiteSpace(NameCandidate(session)) && !IsNullOrWhiteSpace(processPath) ==>
      r == FileNameWithoutExtension(processPath.value)
    ensures IsNullOrWhiteSpace(NameCandidate(session)) && IsNullOrWhiteSpace(processPath) ==>
      r == "PID: " + (if session.Some? then NatToString(session.value.processId) else "")
  {
    var name := NameCandidate(session);
    if !IsNullOrWhiteSpace(name) then ResolveIndirectString(name, load).value
    else if !IsNullOrWhiteSpace(processPath) then FileNameWithoutExtension(processPath.value)
    else "PID: " + (match session case Some(s) => NatToString(s.processId) case None => "")
  }

  /** `VolumeItem.ResolveIcon`: no icon without a session; the executable's
      icon when the session names none; otherwise the normalised icon path,
      split into file and index (which may throw). */
  function ResolveIcon(session: Option<Session>, processPath: Option<string>, p: Platform): (r: Result<Option<IconRef>, IconError>)
    ensures session.None? ==> r == Ok(None)
    ensures session.Some? && IsNullOrWhiteSpace(session.value.iconPath) && IsNullOrEmpty(processPath) ==>
      r == Ok(None)
    ensures r.Ok? && r.value.Some? && r.value.value.ExeIcon? ==>
      && session.Some? && IsNullOrWhiteSpace(session.value.iconPath)
      && processPath == Some(r.value.value.exePath) && r.value.value.exePath != ""
    ensures r.Ok? && r.value.Some? && r.value.value.FileIcon? ==>
      && session.Some? && !IsNullOrWhiteSpace(session.value.iconPath)
      && ParseIconLocation(NormalizeIconPath(session.value.iconPath, p.expandEnv)) == Ok(r.value.value.location)
    ensures session.Some? && !IsNullOrWhiteSpace(session.value.iconPath) ==>
      (r.Err? <==> ParseIconLocation(NormalizeIconPath(session.value.iconPath, p.expandEnv)).Err?)
  {
    match session
    case None => Ok(None)
    case Some(s) =>
      if IsNullOrWhiteSpace(s.iconPath) then
        if IsNullOrEmpty(processPath) then Ok(None)
        else if p.exeIconThrows(processPath.value) then Err(ExeIconError)
        else Ok(Some(ExeIcon(processPath.value)))
      else
        match ParseIconLocation(NormalizeIconPath(s.iconPath, p.expandEnv))
        case Ok(loc) => Ok(Some(FileIcon(loc)))
        case Err(e) => Err(IndexError(e))
  }

  /** The generated `DisplayName` setter: notifies only on a new value. */
  function SetDisplayName(item: VolumeItem, name: Option<string>): (r: VolumeItem)
    ensures r.displayName == name
    ensures r.raised == item.raised + (if name == item.displayName then [] else [DisplayNameName])
    ensures r.(displayName := item.displayName, raised := item.raised) == item
  {
    if name == item.displayName then item
    else item.(displayName := name, raised := item.raised + [DisplayNameName])
  }

  /** The generated `Icon` setter. Images compare by reference and every
      load creates a new one, so only null replacing null is no change. */
  function SetIcon(item: VolumeItem, icon: Option<IconRef>): (r: VolumeItem)
    ensures r.icon == icon
    ensures r.raised == item.raised + (if icon.None? && item.icon.None? then [] else [IconName])
    ensures r.(icon := item.icon, raised := item.raised) == item
  {
    if icon.None? && item.icon.None? then item
    else item.(icon := icon, raised := item.raised + [IconName])
  }

  /** `VolumeItem.OnSessionControlChanged`, run after `SessionControl` was
      assigned: a missing session or a process id above `int.MaxValue` stops
      it; otherwise the process path, name and icon are resolved again. */
  function OnSessionControlChanged(item: VolumeItem, p: Platform): (r: Result<VolumeItem, IconError>)
    ensures item.session.None? || item.session.value.processId > INT32_MAX ==> r == Ok(item)
    ensures r.Ok? ==> r.value.session == item.session && r.value.hasHandler == item.hasHandler
    ensures r.Ok? && item.session.Some? && item.session.value.processId <= INT32_MAX ==>
      && r.value.processPath == p.processPath(item.session.value.processId)
      && r.value.displayName == Some(ResolveName(item.session, r.value.processPath, p.loadIndirect))
      && ResolveIcon(item.session, r.value.processPath, p) == Ok(r.value.icon)
  {
    var pid := if item.session.None? then -1 else ToInt32(item.session.value.processId);
    if pid < 0 then Ok(item)
    else
      var path := p.processPath(pid);
      var named := SetDisplayName(item.(processPath := path), Some(ResolveName(item.session, path, p.loadIndirect)));
      match ResolveIcon(item.session, path, p)
      case Ok(icon) => Ok(SetIcon(named, icon))
      case Err(e) => Err(e)
  }

  /** The generated `SessionControl` setter. Sessions compare by reference,
      so only null replacing null is no change; otherwise the field is
      assigned, `OnSessionControlChanged` runs, and the change is announced. */
  function SetSessionControl(item: VolumeItem, s: Option<Session>, p: Platform): (r: Result<VolumeItem, IconError>)
    ensures r.Ok? ==> r.value.session == s && r.value.hasHandler == item.hasHandler
    ensures r.Ok? && (s.Some? || item.session.Some?) ==>
      |r.value.raised| > 0 && r.value.raised[|r.value.raised| - 1] == SessionControlName
    ensures s.None? ==> r.Ok?
  {
    if s.None? && item.session.None? then Ok(item)
    else
      match OnSessionControlChanged(item.(session := s), p)
      case Ok(changed) => Ok(changed.(raised := changed.raised + [SessionControlName]))
      case Err(e) => Err(e)
  }

  /** `SessionControl = null`: nothing but the session field and the
      notification changes; the name, icon and process path stay. */
  function ClearSessionControl(item: VolumeItem): (r: VolumeItem)
    ensures r.session.None?
    ensures r.displayName == item.displayName && r.icon == item.icon && r.processPath == item.processPath
    ensures r.hasHandler == item.hasHandler
    ensures item.session.None? ==> r == item
    ensures item.session.Some? ==> r.raised == item.raised + [SessionControlName]
  {
    if item.session.None? then item
    else item.(session := None, raised := item.raised + [SessionControlName])
  }

  /** `new VolumeItem { SessionControl = s }`. */
  function Wrap(s: Session, p: Platform): (r: Result<VolumeItem, IconError>)
    ensures r.Ok? ==> r.value.session == Some(s) && !r.value.hasHandler
  {
    SetSessionControl(Fresh, Some(s), p)
  }

  /** The `VolumeLevel` getter; `toPercent` is `(int)(volume * 100)`. */
  function VolumeLevel(item: VolumeItem, toPercent: Scalar -> int): (r: int)
    ensures item.session.None? ==> r == 0
    ensures item.session.Some? ==> r == toPercent(item.session.value.volume)
  {
    match item.session
    case None => 0
    case Some(s) => toPercent(s.volume)
  }

  /** The `VolumeLevel` setter. Its backing local starts at -1, so
      `SetProperty` reports a change for every value but -1. The value is
      written as `value / 100.0f`, and NAudio's `SimpleAudioVolume.Volume`
      setter forwards only levels in 0.0..1.0, so the session's volume
      changes only for a value in 0..100. */
  function SetVolumeLevel(item: VolumeItem, value: int): (r: VolumeItem)
    ensures r.(session := item.session, raised := item.raised) == item
    ensures r.session.Some? <==> item.session.Some?
    ensures value != -1 && !InVolumeRange(value) ==> r.session == item.session
    ensures InVolumeRange(value) && item.session.Some? ==> r.session.value.volume == Pushed(value)
  {
    var volume := -1;
    if value == volume then item
    else
      var pushed := match item.session
        case None => None
        case Some(s) => if InVolumeRange(value) then Some(s.(volume := Pushed(value))) else Some(s);
      item.(session := pushed, raised := item.raised + [VolumeLevelName])
  }

  /** The percentages whose `value / 100.0f` lies in 0.0..1.0. */
  predicate InVolumeRange(value: int) {
    0 <= value <= 100
  }

  /** The `IsMuted` getter. */
  function IsMuted(item: VolumeItem): (r: bool)
    ensures item.session.None? ==> !r
    ensures item.session.Some? ==> (r <==> item.session.value.muted)
  {
    item.session.Some? && item.session.value.muted
  }

  /** `MuteIcon`. */
  function MuteIcon(item: VolumeItem): (r: string)
    ensures r == "\U{1F507}" <==> IsMuted(item)
    ensures r == "\U{1F50A}" <==> !IsMuted(item)
  {
    if IsMuted(item) then "\U{1F507}" else "\U{1F50A}"
  }

  /** The `IsMuted` setter. Its backing local starts at `!value`, so the
      value is always pushed and both `IsMuted` and `MuteIcon` renotified. */
  function SetIsMuted(item: VolumeItem, value: bool): (r: VolumeItem)
    ensures r.(session := item.session, raised := item.raised) == item
    ensures r.session.Some? <==> item.session.Some?
  {
    var isMuted := !value;
    if isMuted == value then item
    else
      var pushed := match item.session
        case None => None
        case Some(s) => Some(s.(muted := value));
      item.(session := pushed, raised := item.raised + [IsMutedName, MuteIconName])
  }

  /** `ToggleMuteCommand`: `IsMuted = !IsMuted`. */
  function ToggleMute(item: VolumeItem): (r: VolumeItem)
    ensures r.(session := item.session, raised := item.raised) == item
    ensures item.session.Some? ==> IsMuted(r) == !IsMuted(item)
    ensures item.session.None? ==> !IsMuted(r)
    ensures r.raised == item.raised + [IsMutedName, MuteIconName]
  {
    SetIsMuted(item, !IsMuted(item))
  }

  /** `NotifyVolumeChanged`. */
  function NotifyVolumeChanged(item: VolumeItem): (r: VolumeItem)
    ensures r.(raised := item.raised) == item
    ensures r.raised == item.raised + [VolumeLevelName]
  {
    item.(raised := item.raised + [VolumeLevelName])
  }

  /** `NotifyMuteChanged`. */
  function NotifyMuteChanged(item: VolumeItem): (r: VolumeItem)
    ensures r.(raised := item.raised) == item
    ensures r.raised == item.raised + [IsMutedName, MuteIconName]
  {
    item.(raised := item.raised + [IsMutedName, MuteIconName])
  }
}
