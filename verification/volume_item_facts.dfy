/** Properties of `VolumeItem`: the name and icon fallbacks, the volume and
    mute setters, and what assigning `SessionControl` does. */
module VolumeItemFacts {
  import opened Wrappers
  import opened DotNetText
  import opened Int32Text
  import opened WindowsPath
  import opened Utils
  import opened VolumeItems

  // ---------------------------------------------------------------------
  // Display name

  /** An empty (non-null) display name hides the session identifier: the
      identifier is never consulted, whatever it is. */
  lemma EmptyDisplayNameSkipsIdentifier(s: Session, id: Option<string>, path: Option<string>, load: IndirectLoader)
    requires s.displayName == Some("")
    ensures ResolveName(Some(s), path, load) == ResolveName(Some(s.(identifier := id)), path, load)
    ensures !IsNullOrWhiteSpace(path) ==> ResolveName(Some(s), path, load) == FileNameWithoutExtension(path.value)
  {
  }

  /** With no display name at all, a non-blank identifier is the name. */
  lemma NullDisplayNameUsesIdentifier(s: Session, path: Option<string>, load: IndirectLoader)
    requires s.displayName.None? && s.identifier.Some? && !AllWhiteSpace(s.identifier.value)
    requires !StartsWithAt(Trim(s.identifier.value))
    ensures ResolveName(Some(s), path, load) == Trim(s.identifier.value)
  {
    ResolveIndirectLiteral(s.identifier.value, load);
  }

  /** A session without a usable name falls back to the file name of its
      process, without directory and extension. */
  lemma ResolveNameFromProcessPath(s: Session, dir: string, stem: string, ext: string, load: IndirectLoader)
    requires IsNullOrWhiteSpace(NameCandidate(Some(s)))
    requires NoSeparator(stem) && NoSeparator(ext) && '.' !in ext
    ensures ResolveName(Some(s), Some(dir + "\\" + stem + "." + ext), load) == stem
  {
    var path := dir + "\\" + stem + "." + ext;
    FileNameWithoutExtensionOfFile(dir, stem, ext);
    assert path[|dir|] == '\\';
    assert !IsNullOrWhiteSpace(Some(path));
  }

  /** `C:\Apps\foo.exe` gives the name `foo`. */
  lemma ResolveNameFooExample(s: Session, load: IndirectLoader)
    requires s.displayName == Some("")
    ensures ResolveName(Some(s), Some("C:\\Apps\\foo.exe"), load) == "foo"
  {
    assert NoSeparator("foo") && NoSeparator("exe") && '.' !in "exe";
    ResolveNameFromProcessPath(s, "C:\\Apps", "foo", "exe", load);
    FooPath();
  }

  lemma FooPath()
    ensures "C:\\Apps" + "\\" + "foo" + "." + "exe" == "C:\\Apps\\foo.exe"
  {
    var path := "C:\\Apps" + "\\" + "foo" + "." + "exe";
    assert |path| == 15;
    forall i | 0 <= i < 15 ensures path[i] == "C:\\Apps\\foo.exe"[i] {}
  }

  /** With neither a usable name nor a process path, process 4242 is
      called `PID: 4242`. */
  lemma ResolveNamePidExample(s: Session, path: Option<string>, load: IndirectLoader)
    requires s.displayName == Some("") && s.processId == 4242 && IsNullOrWhiteSpace(path)
    ensures ResolveName(Some(s), path, load) == "PID: 4242"
  {
    assert NatToString(4242) == "4242";
  }

  // ---------------------------------------------------------------------
  // Icon source

  /** The icon is taken from the executable exactly when the session names
      no icon and the process path is non-empty, even if that path is blank. */
  lemma ResolveIconFromExecutable(s: Session, path: string, p: Platform)
    requires IsNullOrWhiteSpace(s.iconPath) && path != "" && !p.exeIconThrows(path)
    ensures ResolveIcon(Some(s), Some(path), p) == Ok(Some(ExeIcon(path)))
  {
  }

  /** A named icon path is normalised and then split into file and index;
      the process path plays no part. */
  lemma ResolveIconFromPath(s: Session, path: Option<string>, path': Option<string>, p: Platform)
    requires !IsNullOrWhiteSpace(s.iconPath)
    ensures ResolveIcon(Some(s), path, p) == ResolveIcon(Some(s), path', p)
    ensures ParseIconLocation(NormalizeIconPath(s.iconPath, p.expandEnv)).Ok? ==>
      ResolveIcon(Some(s), path, p) == Ok(Some(FileIcon(ParseIconLocation(NormalizeIconPath(s.iconPath, p.expandEnv)).value)))
  {
  }

  /** `"@file,index"` names file and index, with the `@` dropped. */
  lemma ResolveIconOfShellLocation(s: Session, file: string, index: int, path: Option<string>, p: Platform)
    requires ExpandsOnlyPercent(p.expandEnv) && IsInt32(index)
    requires file != "" && !IsWhiteSpace(file[0]) && ',' !in file && '%' !in file
    requires s.iconPath == Some("@" + FormatIconLocation(IconLocation(file, index)))
    ensures ResolveIcon(Some(s), path, p) == Ok(Some(FileIcon(IconLocation(file, index))))
  {
    var loc := IconLocation(file, index);
    var text := FormatIconLocation(loc);
    var raw := "@" + text;
    var digits := Int32ToString(index);
    assert text[|text| - 1] == digits[|digits| - 1];
    assert raw[|raw| - 1] == text[|text| - 1];
    assert '%' !in raw by {
      assert raw == "@" + file + "," + digits;
      assert '%' !in digits;
    }
    assert !IsWhiteSpace(digits[|digits| - 1]);
    assert IsTrimmed(raw);
    NormalizeOfTrimmed(raw, p.expandEnv);
    assert raw[1..] == text;
    assert !AllWhiteSpace(raw) by {
      assert !IsWhiteSpace(raw[0]);
    }
    ParseFormatIconLocation(loc);
  }

  // ---------------------------------------------------------------------
  // Volume and mute

  /** A value in 0..100 is pushed and read back through the conversion; any
      other value but -1 leaves the session and the volume read back as they
      were, yet still notifies; -1 changes nothing; a missing session reads
      as 0. Writing the same value twice stores what writing it once does. */
  lemma VolumeLevelWrite(item: VolumeItem, value: int, toPercent: Scalar -> int)
    ensures value == -1 ==> SetVolumeLevel(item, value) == item
    ensures 0 <= value <= 100 && item.session.Some? ==>
      && SetVolumeLevel(item, value).session == Some(item.session.value.(volume := Pushed(value)))
      && VolumeLevel(SetVolumeLevel(item, value), toPercent) == toPercent(Pushed(value))
    ensures value != -1 && !(0 <= value <= 100) ==>
      && SetVolumeLevel(item, value).session == item.session
      && VolumeLevel(SetVolumeLevel(item, value), toPercent) == VolumeLevel(item, toPercent)
    ensures value != -1 ==> SetVolumeLevel(item, value).raised == item.raised + [VolumeLevelName]
    ensures item.session.None? ==> VolumeLevel(SetVolumeLevel(item, value), toPercent) == 0
    ensures SetVolumeLevel(SetVolumeLevel(item, value), value).session == SetVolumeLevel(item, value).session
  {
  }

  /** Setting `IsMuted` always pushes the value and renotifies both the
      flag and the icon, even when the value does not change. */
  lemma SetIsMutedAlwaysPushes(item: VolumeItem, value: bool)
    ensures IsMuted(SetIsMuted(item, value)) == (item.session.Some? && value)
    ensures SetIsMuted(item, value).raised == item.raised + [IsMutedName, MuteIconName]
    ensures item.session.Some? ==> SetIsMuted(item, value).session == Some(item.session.value.(muted := value))
  {
  }

  /** Toggling flips the mute state of a wrapped session and toggling twice
      restores it; without a session the item stays unmuted. */
  lemma ToggleMuteFlips(item: VolumeItem)
    ensures item.session.Some? ==> IsMuted(ToggleMute(item)) == !IsMuted(item)
    ensures item.session.Some? ==> ToggleMute(ToggleMute(item)).session == item.session
    ensures item.session.None? ==> !IsMuted(ToggleMute(item)) && ToggleMute(item).session.None?
    ensures MuteIcon(ToggleMute(item)) != MuteIcon(item) <==> item.session.Some?
  {
  }

  // ---------------------------------------------------------------------
  // SessionControl

  /** Clearing `SessionControl` never fails and keeps name, icon and path. */
  lemma ClearingSessionControl(item: VolumeItem, p: Platform)
    ensures SetSessionControl(item, None, p) == Ok(ClearSessionControl(item))
  {
  }

  /** Wrapping a session resolves its metadata, unless the process id does
      not fit in an `int`, in which case the item keeps no name, icon or path. */
  lemma WrapMetadata(s: Session, p: Platform)
    ensures s.processId > INT32_MAX ==>
      Wrap(s, p) == Ok(Fresh.(session := Some(s), raised := [SessionControlName]))
    ensures s.processId <= INT32_MAX && Wrap(s, p).Ok? ==>
      && Wrap(s, p).value.processPath == p.processPath(s.processId)
      && Wrap(s, p).value.displayName == Some(ResolveName(Some(s), p.processPath(s.processId), p.loadIndirect))
      && ResolveIcon(Some(s), p.processPath(s.processId), p) == Ok(Wrap(s, p).value.icon)
  {
    if s.processId > INT32_MAX {
      var item := Fresh.(session := Some(s));
      assert OnSessionControlChanged(item, p) == Ok(item);
      assert item.raised == [];
      var r := SetSessionControl(Fresh, Some(s), p);
      assert r.Ok?;
      assert r.value == item.(raised := item.raised + [SessionControlName]);
      assert item.raised + [SessionControlName] == [SessionControlName];
    }
  }

  /** Wrapping fails exactly when icon resolution throws. */
  lemma WrapFailsOnlyOnIcon(s: Session, p: Platform)
    ensures Wrap(s, p).Err? <==>
      (s.processId <= INT32_MAX && ResolveIcon(Some(s), p.processPath(s.processId), p).Err?)
  {
  }
}
