# TinyVolumeAdjuster in Dafny

TinyVolumeAdjuster is a small Windows tray application that lists the audio
sessions of the default render device and lets the user change each
session's volume and mute flag. This project models its core in Dafny:

- the `VolumeAdjuster` session registry, its byte guard `loc`, its device and
  session event handlers, and the work they post to the WPF dispatcher;
- the `VolumeItem` view model: how a session's display name and icon source
  are chosen, and how the volume and mute setters behave;
- the string helpers of `Utils`: `ResolveIndirectString`,
  `NormalizeIconPath`, and the `"file,index"` split at the top of `LoadIcon`.

## Layout

| file | module | contents |
|---|---|---|
| `wrappers.dfy` | `Wrappers` | `Option`, `Result` |
| `dotnet_text.dfy` | `DotNetText` | `Char.IsWhiteSpace`, `String.Trim`, `IsNullOrWhiteSpace`, the first two parts of `Split` |
| `int32_text.dfy` | `Int32Text` | `int.Parse` with the default `NumberStyles.Integer`, and `Int32.ToString` |
| `windows_path.dfy` | `WindowsPath` | `Path.GetFileNameWithoutExtension` |
| `utils.dfy` | `Utils` | the `Utils` helpers and their lemmas |
| `volume_item.dfy` | `VolumeItems` | `VolumeItem` |
| `volume_item_facts.dfy` | `VolumeItemFacts` | name, icon, volume and mute lemmas |
| `adjuster.dfy` | `Adjuster` | registry state, `DeviceInit`/`DeviceUninit`, the posted actions |
| `session_events.dfy` | `SessionEvents` | `AudioSessionEventHandler` |
| `device_events.dfy` | `DeviceEvents` | `DeviceNotificationHandler` |
| `system.dfy` | `AdjusterSystem` | every event as one `Step`, and `Run` over a trace |
| `guard_facts.dfy` | `GuardFacts` | the guard invariant and the stuck guard |
| `registry_facts.dfy` | `RegistryFacts` | collection contents, closing, and the registry invariant |

The registry is an immutable `State`. It holds:

- the guard `loc`;
- whether the enumerator and the session manager exist;
- the tracked device;
- the collection `items`;
- every `VolumeItem` ever created (`objects`, keyed by identity);
- the handlers whose `_item` has been cleared (`detached`);
- a FIFO `queue` of work posted with `Dispatcher.BeginInvoke`.

Every entry point is one atomic step. So is the dispatcher running the
oldest posted action (`Dispatch`).

The application installs a `DispatcherUnhandledException` handler that
exits the process. An exception that escapes a posted action therefore sets
the absorbing flag `halted`. Four such exceptions exist:

- a volume notification whose handler was detached before the notification
  ran;
- an icon index that does not parse inside the setup loop, which has no
  `catch`;
- `LoadExeIcon` throwing inside the setup loop, reached through the
  `SessionControl` initializer and `ResolveIcon`;
- no default render endpoint when the setup action runs.

Calls into Windows become fields of a `Platform` record. The fields are
functions the model does not interpret:

- `GetProcessPath`;
- `SHLoadIndirectString`, as `Some(text)` on S_OK;
- `ExpandEnvironmentVariables`;
- whether `LoadExeIcon` throws.

The stored volume is kept abstract (`Scalar`). The getter's float conversion
is a parameter.

### Where the code and its design description differ

The model follows the code in each case below.

- **No device ends the process.** NAudio's `GetDefaultAudioEndpoint`
  throws when there is no default endpoint, so the null check after it
  never fires. The setup action creates the enumerator, registers the
  device callback and then throws, and the process exits; `DeviceInit`
  itself has already stored `loc = 1`. The description says the registry
  stays unbound.
- **The guard can stick at 2.** The early returns in `DeviceInit` and
  `DeviceUninit` are outside the `try`/`finally`, so `loc` can stay at 2. A
  change of default device while bound reaches this state: `DeviceUninit`
  posts the teardown, and `DeviceInit` still sees the enumerator. From then
  on the registry never binds again.
- **Teardown keeps the items.** The teardown action does not clear the
  collection.
- **No de-duplication.** Sessions are not compared. Two notifications for
  one session give two items, and `Remove` takes out only the first.
- **A late notification crashes.** A close followed by an already-posted
  volume notification ends the process.
- **No clamping.** The `VolumeLevel` setter does not clamp: it notifies for
  every value except -1 and hands `value / 100.0f` to NAudio, whose
  `SimpleAudioVolume.Volume` setter drops levels outside 0.0..1.0. So a
  value outside 0..100 leaves the session's volume as it was.
- **Channel changes renotify only the volume.** `OnChannelVolumeChanged`
  renotifies `VolumeLevel` alone. `OnVolumeChanged` renotifies volume and
  mute; neither stores the reported values.

## Model

| member | source | states |
|---|---|---|
| DotNetText.LeadingWhiteSpace | Utils.cs:132 | the length of the leading white-space run: it is all white space and is followed by a non-white-space character or the end |
| DotNetText.Trim | Utils.cs:132 | `Trim` never lengthens its input, leaves no white space at either end, and is empty exactly when the input is all white space |
| DotNetText.TrimIdempotent | Utils.cs:132 | trimming twice is trimming once |
| DotNetText.TrimRemovesOnlyWhiteSpace | Utils.cs:132 | the input is the trimmed text with white space before and after it |
| DotNetText.TrimOfPadded | Utils.cs:132 | white space around a trimmed text is exactly what `Trim` removes |
| DotNetText.IsWhiteSpace | Utils.cs:129-132 | `char.IsWhiteSpace`: the Unicode separators, U+0009 to U+000D, U+0085 and U+00A0 |
| DotNetText.FirstPart | Utils.cs:56-57 | `parts[0]` holds no separator; it is the whole string when there is none, and otherwise a prefix followed by the separator |
| Int32Text.NatToString | VolumeAdjuster.cs:58 | decimal text of a natural: non-empty, digits only, no leading zero |
| DotNetText.SecondPart | Utils.cs:56-58 | `parts[1]` exists exactly when the separator occurs; it holds no separator and follows the first part and the separator |
| Int32Text.Int32ToString | Utils.cs:58 | not an operation of the program: the reference inverse of the `int.Parse` there, used by `ParseOfToString` and `ParseFormatIconLocation`; decimal text with a minus sign exactly for negative values, otherwise digits without a leading zero |
| Int32Text.ParseInt32 | Utils.cs:58 | `int.Parse` returns only values in the `Int32` range |
| Int32Text.ParseOfToString | Utils.cs:58 | parsing the decimal text of any `Int32` gives it back |
| Int32Text.ParseOverflow | Utils.cs:58 | digits whose value exceeds `Int32.MaxValue` overflow instead of wrapping |
| Int32Text.ParseWithoutDigits | Utils.cs:58 | text with no digit is a format error |
| WindowsPath.FileName | VolumeAdjuster.cs:56-57 | the file name holds no directory separator and ends the path |
| WindowsPath.FileNameWithoutExtension | VolumeAdjuster.cs:56-57 | the name without its extension is a separator-free prefix of the file name |
| WindowsPath.FileNameWithoutExtensionOfFile | VolumeAdjuster.cs:56-57 | `dir\stem.ext` gives back `stem` |
| WindowsPath.FileNameInDirectory | VolumeAdjuster.cs:56-57 | the file name is whatever follows the last separator |
| WindowsPath.DropExtension | VolumeAdjuster.cs:56-57 | the extension starts at the last `.` of the file name |
| Utils.ResolveIndirectString | Utils.cs:127-146 | null stays null; a changed result is either the trimmed input or the loader's text for it |
| Utils.ResolveIndirectKeepsBlank | Utils.cs:129-130 | null or blank input is returned unchanged |
| Utils.ResolveIndirectLiteral | Utils.cs:132-136 | text that is not an `@` reference comes back trimmed, and resolving again changes nothing |
| Utils.ResolveIndirectReference | Utils.cs:138-145 | an `@` reference gives the loader's text on success and the trimmed reference on failure |
| Utils.ResolveIndirectOfPadded | Utils.cs:129-136 | a literal name padded with white space resolves to the name |
| Utils.NormalizeIconPath | Utils.cs:148-151 | null or blank becomes the empty string |
| Utils.NormalizeWithoutVariables | Utils.cs:153-160 | without `%` references the result is the trimmed text minus exactly one leading `@` |
| Utils.NormalizeOfPadded | Utils.cs:153-160 | the white space around the path is removed |
| Utils.NormalizeRemovesOnlyOneAt | Utils.cs:155-156 | `@@x` keeps its second `@` |
| Utils.NormalizeKeepsSpaceAfterAt | Utils.cs:153-156 | white space after the `@` is kept |
| Utils.ParseIconLocation | Utils.cs:56-58 | the file is `parts[0]`, the text before the first comma; without a comma the index is 0; otherwise the split succeeds exactly when `int.Parse` of `parts[1]` does, and the index is its value |
| Utils.ParseFormatIconLocation | Utils.cs:56-58 | `file,index` with a comma-free file splits back into that file and index |
| Utils.IconLocationIgnoresLaterParts | Utils.cs:56-58 | parts after the second are ignored |
| Utils.IconLocationNonNumericIndex | Utils.cs:58 | a second part without digits is a format error |
| VolumeItems.ToInt32 | VolumeAdjuster.cs:98 | the `(int)` cast of a `uint` pid is congruent modulo 2^32 and negative exactly above `Int32.MaxValue` |
| VolumeItems.ResolveName | VolumeAdjuster.cs:50-59 | a non-blank `DisplayName ?? SessionIdentifier` is resolved as an indirect string; otherwise the process path's file name without extension; otherwise `PID: ` and the pid |
| VolumeItems.ResolveIcon | VolumeAdjuster.cs:36-48 | no session gives no icon; a blank icon path with a null or empty process path gives no icon; the exe icon is chosen only for a blank icon path and a non-empty process path; otherwise the normalized icon path is split, and resolution throws exactly when the split does |
| VolumeItems.NameCandidate | VolumeAdjuster.cs:52 | the session's `DisplayName` when it is not null, else its session identifier; nothing without a session |
| VolumeItems.VolumeLevel | VolumeAdjuster.cs:18 | the getter reads 0 without a session and the converted stored volume with one |
| VolumeItems.IsMuted | VolumeAdjuster.cs:77 | the getter reads false without a session and the session's mute flag with one |
| VolumeItems.MuteIcon | VolumeAdjuster.cs:89 | the muted icon exactly when muted, the speaker icon exactly when not |
| VolumeItems.ToggleMute | VolumeAdjuster.cs:109-112 | toggling flips the mute flag of a wrapped session, leaves an item without one unmuted, renotifies `IsMuted` and `MuteIcon`, and changes nothing else |
| VolumeItems.SetDisplayName | VolumeAdjuster.cs:33-34 | the setter stores the name and notifies only on a change |
| VolumeItems.SetIcon | VolumeAdjuster.cs:30-31 | the setter stores the icon and notifies unless old and new are both null |
| VolumeItems.OnSessionControlChanged | VolumeAdjuster.cs:96-105 | a null session or a negative pid changes nothing; otherwise the path, name and icon are resolved |
| VolumeItems.SetSessionControl | VolumeAdjuster.cs:92-93 | the setter stores the session, notifies unless both are null, and clearing never fails |
| VolumeItems.ClearSessionControl | VolumeAdjuster.cs:96-100 | setting `SessionControl` to null keeps the name, the icon and the path |
| VolumeItems.SetVolumeLevel | VolumeAdjuster.cs:19-26 | the setter keeps every field but the session and the notifications and keeps the session's presence; it stores a value in 0..100 and leaves the session untouched for any other value but -1 |
| VolumeItems.SetIsMuted | VolumeAdjuster.cs:77-86 | the setter keeps every field but the session and the notifications, and keeps the session's presence |
| VolumeItems.NotifyVolumeChanged | VolumeAdjuster.cs:62-65 | only the `VolumeLevel` notification is added |
| VolumeItems.NotifyMuteChanged | VolumeAdjuster.cs:67-71 | only the `IsMuted` and `MuteIcon` notifications are added |
| VolumeItems.Wrap | VolumeAdjuster.cs:271-274 | a wrapped item holds its session and has no handler yet |
| VolumeItemFacts.EmptyDisplayNameSkipsIdentifier | VolumeAdjuster.cs:52-53 | an empty but non-null `DisplayName` skips the session identifier |
| VolumeItemFacts.NullDisplayNameUsesIdentifier | VolumeAdjuster.cs:52-54 | a null `DisplayName` falls back to the resolved identifier |
| VolumeItemFacts.ResolveNameFromProcessPath | VolumeAdjuster.cs:55-57 | without a name the item is named after the executable's file name without its extension |
| VolumeItemFacts.ResolveNameFooExample | VolumeAdjuster.cs:55-57 | `C:\Apps\foo.exe` gives `foo` |
| VolumeItemFacts.ResolveNamePidExample | VolumeAdjuster.cs:58 | with no name and no path, pid 4242 gives `PID: 4242` |
| VolumeItemFacts.ResolveIconFromExecutable | VolumeAdjuster.cs:40-45 | a blank icon path and a process path give the executable's icon |
| VolumeItemFacts.ResolveIconFromPath | VolumeAdjuster.cs:40-47 | a non-blank icon path is loaded from the normalized path, whatever the process path |
| VolumeItemFacts.ResolveIconOfShellLocation | VolumeAdjuster.cs:47 | an icon path `@file,index` loads icon `index` of `file` |
| VolumeItemFacts.VolumeLevelWrite | VolumeAdjuster.cs:16-27 | a value in 0..100 is pushed and read back; any other value but -1 keeps the session's volume and still notifies; -1 changes nothing; no session reads 0; writing a value twice stores what writing it once does |
| VolumeItemFacts.SetIsMutedAlwaysPushes | VolumeAdjuster.cs:75-87 | the setter always pushes the value and renotifies `IsMuted` and `MuteIcon` |
| VolumeItemFacts.ToggleMuteFlips | VolumeAdjuster.cs:75-89 | toggling flips the mute flag and the icon of a wrapped session; twice restores it; no session stays unmuted |
| VolumeItemFacts.ClearingSessionControl | VolumeAdjuster.cs:92-100 | clearing `SessionControl` succeeds and keeps name, icon and path |
| VolumeItemFacts.WrapMetadata | VolumeAdjuster.cs:96-105 | a wrapped session's path, name and icon are resolved unless its pid is negative as an `int` |
| VolumeItemFacts.WrapFailsOnlyOnIcon | VolumeAdjuster.cs:96-105 | wrapping throws exactly when icon resolution throws |
| Adjuster.DeviceInit | VolumeAdjuster.cs:249-286 | binding never touches the collection, the items, the enumerator or the process |
| Adjuster.DeviceUninit | VolumeAdjuster.cs:288-322 | unbinding never touches the collection, the items, the enumerator or the process |
| Adjuster.OnSessionCreated | VolumeAdjuster.cs:324-327 | a new session only posts its wrapping |
| Adjuster.RemoveItem | VolumeAdjuster.cs:347-350 | an absent item changes nothing; a present one shortens the collection by one, leaving everything else |
| Adjuster.FirstIndex | VolumeAdjuster.cs:349 | the position of the first occurrence |
| Adjuster.RemoveFirst | VolumeAdjuster.cs:349 | reinserting the item at its first position gives the collection back |
| Adjuster.Attach | VolumeAdjuster.cs:275-277 | a new identity is appended, its handler set and registered with the session |
| Adjuster.Ids | VolumeAdjuster.cs:268-278 | consecutive fresh identities |
| Adjuster.WrapAll | VolumeAdjuster.cs:268-274 | one wrapping outcome per session, in order |
| Adjuster.AddWrapped | VolumeAdjuster.cs:268-278 | the loop changes only the collection, the items, the identities and the process |
| Adjuster.AddSessions | VolumeAdjuster.cs:268-278 | the setup loop changes only the collection, the items, the next identity and the process |
| Adjuster.RunSetup | VolumeAdjuster.cs:258-279 | the setup always creates the enumerator; with a default device it tracks it and takes its session manager; with none the endpoint lookup throws and the process ends, nothing else changing |
| Adjuster.Construct | VolumeAdjuster.cs:241-245 | a new adjuster has an empty collection, no enumerator or device, the guard bound and exactly the setup posted |
| Adjuster.DevId | VolumeAdjuster.cs:247 | the tracked device's ID, or the empty string without a device |
| Adjuster.Dispose | VolumeAdjuster.cs:352-355 | disposing never touches the collection or the items; from a bound guard with an enumerator it unbinds and posts one teardown, without an enumerator it sticks at 2, and otherwise nothing changes |
| Adjuster.RunTeardown | VolumeAdjuster.cs:296-316 | the teardown releases the manager, the device and the enumerator and leaves the collection |
| Adjuster.RunAddSession | VolumeAdjuster.cs:326-338 | a new session is appended as exactly one item, or nothing changes when wrapping throws |
| Adjuster.RunClose | VolumeAdjuster.cs:167-179 | a live close removes the item, clears its handler and session, keeps name and icon, and detaches the handler; a second close changes nothing |
| Adjuster.RunNotify | VolumeAdjuster.cs:186-190 | a notification for a detached handler ends the process; otherwise only the item's notifications change |
| Adjuster.RunNext | VolumeAdjuster.cs:256-316 | running posted work never moves the guard and consumes the oldest posting; a setup always creates the enumerator, a teardown always releases it, and other work leaves it alone |
| SessionEvents.OnChannelVolumeChanged | VolumeAdjuster.cs:131-136 | posts a volume notification only while the handler's item is set |
| SessionEvents.OnVolumeChanged | VolumeAdjuster.cs:182-191 | posts a volume-and-mute notification only while the handler's item is set |
| SessionEvents.CloseSession | VolumeAdjuster.cs:163-180 | posts a close only while the handler's item is set |
| SessionEvents.OnSessionDisconnected | VolumeAdjuster.cs:150-153 | a disconnect, for any reason, posts a close only while the handler's item is set |
| SessionEvents.OnStateChanged | VolumeAdjuster.cs:155-161 | only the expired state closes |
| DeviceEvents.OnDeviceStateChanged | VolumeAdjuster.cs:210-220 | a state change of another device changes nothing; for the tracked device, leaving the active state unbinds and entering it binds; the collection, the items and the process are never touched |
| DeviceEvents.OnDefaultDeviceChanged | VolumeAdjuster.cs:221-228 | only a render/multimedia change acts; the collection, the items and the process are never touched |
| AdjusterSystem.Step | VolumeAdjuster.cs:131-355 | after the process has ended nothing changes, and no event attaches a cleared handler again |
| AdjusterSystem.Run | VolumeAdjuster.cs:131-355 | an ended process stays as it is over every trace, and a cleared handler stays cleared |
| AdjusterSystem.UpdateItem | VolumeAdjuster.cs:16-112 | a user action changes only its own item |
| GuardFacts.CountsAppend | VolumeAdjuster.cs:249-322 | posting counts one more setup or teardown |
| GuardFacts.DeviceInitGuard | VolumeAdjuster.cs:249-286 | init acts only from 0; without an enumerator it ends at 1 with one setup posted; with one it leaves 2 |
| GuardFacts.DeviceUninitGuard | VolumeAdjuster.cs:288-322 | uninit acts only from 1; with an enumerator it ends at 0 with one teardown posted; without one it leaves 2 |
| GuardFacts.SecondCallIsNoOp | VolumeAdjuster.cs:249-355 | a second init, uninit or dispose right after the first changes nothing |
| GuardFacts.DeviceStateDispatch | VolumeAdjuster.cs:210-220 | a state change of the tracked device unbinds when inactive and binds when active; other devices are ignored |
| GuardFacts.DefaultDeviceDispatch | VolumeAdjuster.cs:205-232 | only a render/multimedia default change rebinds; added, removed and property events are ignored |
| GuardFacts.ConstructIsCoherent | VolumeAdjuster.cs:241-245 | construction binds with one setup posted, and the guard invariant holds |
| GuardFacts.DeviceInitKeepsCoherent | VolumeAdjuster.cs:249-286 | init keeps the guard invariant |
| GuardFacts.DeviceUninitKeepsCoherent | VolumeAdjuster.cs:288-322 | uninit keeps the guard invariant |
| GuardFacts.RunNextCounts | VolumeAdjuster.cs:256-316 | running a setup creates the enumerator, running a teardown releases it, and each consumes its posting |
| GuardFacts.RunNextKeepsCoherent | VolumeAdjuster.cs:256-316 | running posted work keeps the guard invariant |
| GuardFacts.StepKeepsCoherent | VolumeAdjuster.cs:131-355 | every event keeps the guard invariant |
| GuardFacts.PostingStepCounts | VolumeAdjuster.cs:131-327 | a session callback leaves the guard and the enumerator and posts neither a setup nor a teardown |
| GuardFacts.PostingStepKeepsCoherent | VolumeAdjuster.cs:131-327 | a session callback keeps the guard invariant |
| GuardFacts.LifecycleStepKeepsCoherent | VolumeAdjuster.cs:205-355 | device notifications and `Dispose` keep the guard invariant |
| GuardFacts.RunKeepsCoherent | VolumeAdjuster.cs:131-355 | every trace keeps the guard invariant |
| GuardFacts.AtMostOneLifecycleActionPending | VolumeAdjuster.cs:249-322 | in every reachable state the guard is 0, 1 or 2, and unless it is 2 at most one setup or teardown is pending |
| GuardFacts.DefaultDeviceChangeLeavesGuardBusy | VolumeAdjuster.cs:221-293 | a default-device change after the setup ran posts a teardown and leaves the guard at 2 |
| GuardFacts.UninitBeforeSetupLeavesGuardBusy | VolumeAdjuster.cs:288-293 | an unbind before the first setup ran leaves the guard at 2 |
| GuardFacts.BusyStepIsInert | VolumeAdjuster.cs:249-322 | with the guard at 2 and no setup pending, no event binds |
| GuardFacts.BusyIsPermanent | VolumeAdjuster.cs:249-322 | with the guard at 2 and no setup pending, no trace ever binds again |
| GuardFacts.DefaultDeviceChangeUnbindsForever | VolumeAdjuster.cs:221-322 | a fresh adjuster, one setup and one default-device change leave it unbound for good |
| RegistryFacts.RemoveFirstMultiset | VolumeAdjuster.cs:349 | `Remove` takes out one copy and keeps the rest |
| RegistryFacts.RemoveFirstKeepsLaterCopies | VolumeAdjuster.cs:349 | a second copy survives the removal |
| RegistryFacts.RemoveFirstOfDistinct | VolumeAdjuster.cs:349 | in a list without repeats the removed item is gone and no other item is added |
| RegistryFacts.RemoveFirstShifts | VolumeAdjuster.cs:349 | the items after the removed one move down one place |
| RegistryFacts.IdsCons | VolumeAdjuster.cs:268-278 | fresh identities peeled at the front |
| RegistryFacts.AllOkCons | VolumeAdjuster.cs:268-278 | every session wraps exactly when the first does and so do the rest |
| RegistryFacts.AddWrappedHalts | VolumeAdjuster.cs:268-278 | the setup loop ends the process exactly when a session fails to wrap |
| RegistryFacts.AddWrappedItems | VolumeAdjuster.cs:268-278 | when every session wraps, one fresh identity per session is appended in order |
| RegistryFacts.AddWrappedKeepsOld | VolumeAdjuster.cs:268-278 | the loop never changes an existing item |
| RegistryFacts.AddWrappedNewItems | VolumeAdjuster.cs:268-278 | the new item for the `k`-th session holds it, registered, with its handler |
| RegistryFacts.WrapAllOutcomes | VolumeAdjuster.cs:268-274 | every session wraps exactly when every outcome is an item, and each item holds its session |
| RegistryFacts.SetupFillsCollection | VolumeAdjuster.cs:266-278 | with a device the setup clears the collection and lists one fresh item per session, or ends the process when one does not wrap |
| RegistryFacts.AddSessionsWrapsEachSession | VolumeAdjuster.cs:268-278 | the loop's item for the `k`-th session holds it, registered |
| RegistryFacts.SetupListsEachSession | VolumeAdjuster.cs:266-278 | after the setup the `k`-th listed item holds the `k`-th session, in the manager's order |
| RegistryFacts.ListsEachSession | VolumeAdjuster.cs:268-278 | the loop over an empty collection lists the `k`-th session's item at position `k` |
| RegistryFacts.TeardownKeepsCollection | VolumeAdjuster.cs:296-316 | running the teardown leaves the collection and releases the enumerator |
| RegistryFacts.SessionsAreNotDeduplicated | VolumeAdjuster.cs:326-336 | the same session reported twice becomes two items |
| RegistryFacts.DetachedHandlerIsSilent | VolumeAdjuster.cs:131-191 | once its item is cleared, a handler ignores every callback |
| RegistryFacts.IgnoredSessionCallbacks | VolumeAdjuster.cs:138-161 | name, icon and grouping changes are ignored, and so is every session state but expiry |
| RegistryFacts.ExpiryClosesLikeDisconnect | VolumeAdjuster.cs:150-161 | an expired state posts the same close as a disconnect |
| RegistryFacts.CloseIsIdempotent | VolumeAdjuster.cs:163-180 | a second close changes nothing |
| RegistryFacts.LiveHandlerPosts | VolumeAdjuster.cs:131-191 | while the item is set, each callback posts its work |
| RegistryFacts.DispatchRunsNotification | VolumeAdjuster.cs:186-190 | the dispatcher runs the oldest posted notification |
| RegistryFacts.DispatchRunsClose | VolumeAdjuster.cs:167-179 | the dispatcher runs the oldest posted close |
| RegistryFacts.PostsInOrder | VolumeAdjuster.cs:150-191 | two callbacks on a live handler are queued in arrival order |
| RegistryFacts.NotificationBeforeCloseIsHarmless | VolumeAdjuster.cs:150-191 | a notification posted before a close runs safely, and the close then removes the item |
| RegistryFacts.CloseBeforeNotificationEndsProcess | VolumeAdjuster.cs:150-191 | a close posted before a notification clears the item, and the notification then ends the process |
| RegistryFacts.EmptyIsConsistent | VolumeAdjuster.cs:241-245 | the new adjuster satisfies the registry invariant |
| RegistryFacts.AttachKeepsConsistent | VolumeAdjuster.cs:275-277 | registering a new item keeps the invariant |
| RegistryFacts.AddWrappedKeepsConsistent | VolumeAdjuster.cs:268-278 | the setup loop keeps the invariant |
| RegistryFacts.CloseKeepsConsistent | VolumeAdjuster.cs:167-179 | a close keeps the invariant |
| RegistryFacts.UpdateKeepsConsistent | VolumeAdjuster.cs:16-87 | an item update that keeps the session and handler keeps the invariant |
| RegistryFacts.RunNextKeepsConsistent | VolumeAdjuster.cs:256-338 | running posted work keeps the invariant |
| RegistryFacts.SetupKeepsConsistent | VolumeAdjuster.cs:258-279 | the setup keeps the invariant |
| RegistryFacts.NotifyKeepsConsistent | VolumeAdjuster.cs:186-190 | a posted notification keeps the invariant, also when it ends the process |
| RegistryFacts.CallbackKeepsRegistry | VolumeAdjuster.cs:131-355 | audio callbacks and `Dispose` only post work and move the guard; the collection, the items and the cleared handlers wait for the dispatcher |
| RegistryFacts.SameRegistryConsistent | VolumeAdjuster.cs:239-350 | the invariant depends only on the collection, the items, the cleared handlers and the next identity |
| RegistryFacts.StepKeepsConsistent | VolumeAdjuster.cs:131-355 | every event keeps the invariant |
| RegistryFacts.RunKeepsConsistent | VolumeAdjuster.cs:131-355 | every trace keeps the invariant |
| RegistryFacts.ListedItemsAreLive | VolumeAdjuster.cs:241-355 | in every reachable state each item is listed once, and each listed item has its session and a live handler |

## Left out

- Floating point: the volume read back is `toPercent` of the stored value, so the `(int)(Volume * 100)` and `value / 100.0f` conversions are not modelled.
- Image creation: the model stops at the chosen icon source. `ExtractIconEx`, `LoadExeIcon`'s image and `CreateBitmapSourceFromHIcon` are not modelled. Only whether `LoadExeIcon` throws is a parameter.
- `Path.GetFileNameWithoutExtension` on UNC roots: only drive roots are recognised.
- `String.StartsWith("@")` is culture-sensitive in .NET and is modelled as an ordinal first-character test.
- `int.Parse` accepting trailing NUL characters is not modelled.
- Int32Text.ParseInt32: the signs are those of the invariant culture, `-` and `+`; a culture whose `NegativeSign` or `PositiveSign` differs (U+2212, say) is not modelled.
- `SHLoadIndirectString`'s 260-character buffer is not modelled: the loader returns its text whole.
- Threads and `Interlocked`: every entry point and every posted action is one atomic step, so the interleavings inside a single call are not modelled.
- COM lifetimes: `Dispose`, `RegisterEventClient` and `UnRegisterEventClient` become presence flags and cannot fail.
- Volume and mute changes made by other applications are not stored: the callbacks only renotify.
- `HandleBug.cs` is not part of this model beyond its effect (the process exits). Neither are `MainViewModel.cs` and `App.xaml.cs`, which are wiring only.
- `GetItems` returns the collection itself; the model exposes `items` directly.
- VolumeItems.SetVolumeLevel: each item keeps its own copy of its session's volume, so two items wrapping one audio session (as `SessionsAreNotDeduplicated` shows can happen) do not see each other's writes, while in the program they share one `SimpleAudioVolume`.
- VolumeItems.SetIsMuted: for the same reason a mute written through one of two items wrapping one session is not read back through the other.
- VolumeItems.ToggleMute: toggles the item's own copy of the mute flag, so after another item wrapping the same session changed it the model toggles a stale value.
- Device and session callbacks are accepted in every state, also before the setup registered them and after the teardown unregistered them; `Step` over-approximates the callbacks the audio subsystem delivers.
- Utils.ResolveIndirectString: its contract does not say which of the two results occurs. `ResolveIndirectLiteral`, `ResolveIndirectReference` and `ResolveIndirectKeepsBlank` cover the three cases.
- Utils.NormalizeIconPath: its contract covers only blank input. `NormalizeWithoutVariables` states the result for input without `%` references; other results depend on the environment.
- RegistryFacts.SetupListsEachSession: requires every wrapping outcome to be an item, which `WrapAllOutcomes` shows is the same as every session wrapping.
