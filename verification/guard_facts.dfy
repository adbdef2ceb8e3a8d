/** The bind/unbind guard. `DeviceInit` and `DeviceUninit` each act only
    from one guard value; while they are in step with the posted setup and
    teardown at most one of those is pending. Two early returns leave the
    guard at 2, and from there no bind or unbind ever happens again; a
    change of default device reaches that state from any bound adjuster. */
module GuardFacts {
  import opened Wrappers
  import opened VolumeItems
  import opened Adjuster
  import opened SessionEvents
  import opened DeviceEvents
  import opened AdjusterSystem

  /** Setup actions posted and not yet run. */
  function Setups(q: seq<Action>): nat {
    if q == [] then 0 else (if q[0].Setup? then 1 else 0) + Setups(q[1..])
  }

  /** Teardown actions posted and not yet run. */
  function Teardowns(q: seq<Action>): nat {
    if q == [] then 0 else (if q[0].Teardown? then 1 else 0) + Teardowns(q[1..])
  }

  lemma {:induction false} CountsAppend(q: seq<Action>, x: Action)
    ensures Setups(q + [x]) == Setups(q) + (if x.Setup? then 1 else 0)
    ensures Teardowns(q + [x]) == Teardowns(q) + (if x.Teardown? then 1 else 0)
  {
    if q != [] {
      assert (q + [x])[1..] == q[1..] + [x];
      CountsAppend(q[1..], x);
    }
  }

  /** The guard agrees with the pending work: unbound means nothing is
      bound and nothing is pending, or a teardown is pending for a bound
      enumerator; bound means a setup is pending for a missing enumerator,
      or the enumerator is in place and nothing is pending. */
  ghost predicate GuardCoherent(a: State) {
    && Unbound <= a.loc <= Busy
    && (a.loc == Unbound ==>
          && Setups(a.queue) == 0
          && ((Teardowns(a.queue) == 0 && !a.enumerator) || (Teardowns(a.queue) == 1 && a.enumerator)))
    && (a.loc == Bound ==>
          && Teardowns(a.queue) == 0
          && ((Setups(a.queue) == 1 && !a.enumerator) || (Setups(a.queue) == 0 && a.enumerator)))
  }

  // ---------------------------------------------------------------------
  // One call at a time

  /** `DeviceInit` proceeds only from `loc == 0`. Without an enumerator it
      ends bound with exactly one setup posted; with one it returns early
      and leaves the guard at 2. */
  lemma DeviceInitGuard(a: State)
    ensures a.loc != Unbound ==> DeviceInit(a) == a
    ensures a.loc == Unbound && !a.enumerator ==>
      DeviceInit(a) == a.(loc := Bound, queue := a.queue + [Setup])
    ensures a.loc == Unbound && a.enumerator ==> DeviceInit(a) == a.(loc := Busy)
  {
  }

  /** `DeviceUninit` proceeds only from `loc == 1`. With an enumerator it
      ends unbound with exactly one teardown posted; without one it returns
      early and leaves the guard at 2. */
  lemma DeviceUninitGuard(a: State)
    ensures a.loc != Bound ==> DeviceUninit(a) == a
    ensures a.loc == Bound && a.enumerator ==>
      DeviceUninit(a) == a.(loc := Unbound, queue := a.queue + [Teardown])
    ensures a.loc == Bound && !a.enumerator ==> DeviceUninit(a) == a.(loc := Busy)
  {
  }

  /** A second bind or unbind right after the first changes nothing: two
      racing initialisations post one setup, two teardowns post one. */
  lemma SecondCallIsNoOp(a: State)
    ensures DeviceInit(DeviceInit(a)) == DeviceInit(a)
    ensures DeviceUninit(DeviceUninit(a)) == DeviceUninit(a)
    ensures Dispose(Dispose(a)) == Dispose(a)
  {
  }

  // ---------------------------------------------------------------------
  // Device notifications

  /** A state change of the tracked device unbinds when it leaves the
      active state and binds when it enters it; a change of any other
      device is ignored. */
  lemma DeviceStateDispatch(a: State, id: string, st: DeviceState, p: Platform)
    requires !a.halted
    ensures id == DevId(a) && st != DeviceActive ==> Step(a, DeviceStateChanged(id, st), p) == DeviceUninit(a)
    ensures id == DevId(a) && st == DeviceActive ==> Step(a, DeviceStateChanged(id, st), p) == DeviceInit(a)
    ensures id != DevId(a) ==> Step(a, DeviceStateChanged(id, st), p) == a
  {
  }

  /** Only a change of the default render device in the multimedia role
      rebinds; added and removed devices and property changes are ignored. */
  lemma DefaultDeviceDispatch(a: State, flow: DataFlow, role: Role, id: string, p: Platform)
    requires !a.halted
    ensures flow == Render && role == Multimedia ==>
      Step(a, DefaultDeviceChanged(flow, role, id), p) == DeviceInit(DeviceUninit(a))
    ensures flow != Render || role != Multimedia ==> Step(a, DefaultDeviceChanged(flow, role, id), p) == a
    ensures Step(a, DeviceAdded(id), p) == a && Step(a, DeviceRemoved(id), p) == a
    ensures Step(a, PropertyValueChanged(id), p) == a
  {
  }

  // ---------------------------------------------------------------------
  // The guard invariant

  lemma ConstructIsCoherent()
    ensures GuardCoherent(Construct())
    ensures Construct().loc == Bound && Construct().queue == [Setup]
  {
    assert Setups([Setup]) == 1 by {
      assert [Setup][1..] == [];
    }
    assert Teardowns([Setup]) == 0 by {
      assert [Setup][1..] == [];
    }
  }

  lemma DeviceInitKeepsCoherent(a: State)
    requires GuardCoherent(a)
    ensures GuardCoherent(DeviceInit(a))
  {
    CountsAppend(a.queue, Setup);
  }

  lemma DeviceUninitKeepsCoherent(a: State)
    requires GuardCoherent(a)
    ensures GuardCoherent(DeviceUninit(a))
  {
    CountsAppend(a.queue, Teardown);
  }

  /** Running one action uses up a pending setup or teardown and moves the
      enumerator accordingly; every other action leaves both alone. */
  lemma RunNextCounts(a: State, ep: Endpoint, p: Platform)
    requires a.queue != []
    ensures var r := RunNext(a, ep, p);
      && Setups(r.queue) == Setups(a.queue) - (if a.queue[0].Setup? then 1 else 0)
      && Teardowns(r.queue) == Teardowns(a.queue) - (if a.queue[0].Teardown? then 1 else 0)
      && (a.queue[0].Setup? ==> r.enumerator)
      && (a.queue[0].Teardown? ==> !r.enumerator)
      && (!a.queue[0].Setup? && !a.queue[0].Teardown? ==> r.enumerator == a.enumerator)
  {
    var rest := a.(queue := a.queue[1..]);
    match a.queue[0]
    case Setup =>
    case Teardown =>
    case AddSession(s) =>
    case NotifyVolume(h) =>
    case NotifyVolumeAndMute(h) =>
    case Close(h) =>
  }

  lemma RunNextKeepsCoherent(a: State, ep: Endpoint, p: Platform)
    requires GuardCoherent(a)
    ensures GuardCoherent(RunNext(a, ep, p))
  {
    if a.queue != [] {
      RunNextCounts(a, ep, p);
    }
  }

  lemma StepKeepsCoherent(a: State, e: Event, p: Platform)
    requires GuardCoherent(a)
    ensures GuardCoherent(Step(a, e, p))
  {
    if !a.halted {
      if e.Dispatch? {
        RunNextKeepsCoherent(a, e.endpoint, p);
      } else if Posts(e) {
        PostingStepKeepsCoherent(a, e, p);
      } else if e.DeviceStateChanged? || e.DefaultDeviceChanged? || e.Disposed? {
        LifecycleStepKeepsCoherent(a, e, p);
      }
    }
  }

  /** The callbacks that post an action for the dispatcher. */
  predicate Posts(e: Event) {
    e.SessionCreated? || e.ChannelVolumeChanged? || e.VolumeChanged? || e.SessionDisconnected? || e.SessionStateChanged?
  }

  lemma PostingStepKeepsCoherent(a: State, e: Event, p: Platform)
    requires GuardCoherent(a) && !a.halted && Posts(e)
    ensures GuardCoherent(Step(a, e, p))
  {
    PostingStepCounts(a, e, p);
  }

  /** A posting callback leaves the guard and the enumerator alone and posts
      neither a setup nor a teardown. */
  lemma PostingStepCounts(a: State, e: Event, p: Platform)
    requires !a.halted && Posts(e)
    ensures var r := Step(a, e, p);
      && r.loc == a.loc && r.enumerator == a.enumerator
      && Setups(r.queue) == Setups(a.queue) && Teardowns(r.queue) == Teardowns(a.queue)
  {
    match e
    case SessionCreated(s) =>
      CountsAppend(a.queue, AddSession(s));
    case ChannelVolumeChanged(h) =>
      CountsAppend(a.queue, NotifyVolume(h));
    case VolumeChanged(h) =>
      CountsAppend(a.queue, NotifyVolumeAndMute(h));
    case SessionDisconnected(h) =>
      CountsAppend(a.queue, Close(h));
    case SessionStateChanged(h, st) =>
      CountsAppend(a.queue, Close(h));
  }

  lemma LifecycleStepKeepsCoherent(a: State, e: Event, p: Platform)
    requires GuardCoherent(a) && !a.halted
    requires e.DeviceStateChanged? || e.DefaultDeviceChanged? || e.Disposed?
    ensures GuardCoherent(Step(a, e, p))
  {
    match e
    case DeviceStateChanged(id, st) =>
      DeviceInitKeepsCoherent(a);
      DeviceUninitKeepsCoherent(a);
    case DefaultDeviceChanged(flow, role, id) =>
      DeviceUninitKeepsCoherent(a);
      DeviceInitKeepsCoherent(DeviceUninit(a));
    case Disposed =>
      DeviceUninitKeepsCoherent(a);
  }

  lemma {:induction false} RunKeepsCoherent(a: State, evs: seq<Event>, p: Platform)
    requires GuardCoherent(a)
    ensures GuardCoherent(Run(a, evs, p))
    decreases |evs|
  {
    if evs != [] {
      StepKeepsCoherent(a, evs[0], p);
      RunKeepsCoherent(Step(a, evs[0], p), evs[1..], p);
    }
  }

  /** In every reachable state the guard is 0, 1 or 2, and unless it is
      stuck at 2, at most one setup or teardown is pending. */
  lemma AtMostOneLifecycleActionPending(evs: seq<Event>, p: Platform)
    ensures Unbound <= Run(Construct(), evs, p).loc <= Busy
    ensures Run(Construct(), evs, p).loc != Busy ==>
      Setups(Run(Construct(), evs, p).queue) + Teardowns(Run(Construct(), evs, p).queue) <= 1
  {
    ConstructIsCoherent();
    RunKeepsCoherent(Construct(), evs, p);
  }

  // ---------------------------------------------------------------------
  // The stuck guard

  /** A change of default device while bound (the setup has run) unbinds,
      posting a teardown, then finds the enumerator still present and
      returns early: the guard is left at 2. */
  lemma DefaultDeviceChangeLeavesGuardBusy(a: State, id: string)
    requires GuardCoherent(a) && a.loc == Bound && Setups(a.queue) == 0
    ensures OnDefaultDeviceChanged(a, Render, Multimedia, id) == a.(loc := Busy, queue := a.queue + [Teardown])
  {
  }

  /** An unbind before the posted setup has run finds no enumerator and
      also leaves the guard at 2. */
  lemma UninitBeforeSetupLeavesGuardBusy()
    ensures DeviceUninit(Construct()).loc == Busy
    ensures DeviceUninit(Construct()).queue == [Setup]
  {
  }

  /** With the guard at 2 and no setup pending, no step binds again: the
      guard stays 2, no setup is ever posted and no enumerator appears. */
  lemma BusyStepIsInert(a: State, e: Event, p: Platform)
    requires a.loc == Busy && Setups(a.queue) == 0 && !a.enumerator
    ensures var r := Step(a, e, p);
      r.loc == Busy && Setups(r.queue) == 0 && !r.enumerator
  {
    if !a.halted {
      if e.Dispatch? {
        if a.queue != [] {
          RunNextCounts(a, e.endpoint, p);
        }
      } else if Posts(e) {
        PostingStepCounts(a, e, p);
      } else if e.DeviceStateChanged? || e.DefaultDeviceChanged? || e.Disposed? {
        DeviceInitGuard(a);
        DeviceUninitGuard(a);
      }
    }
  }

  lemma {:induction false} BusyIsPermanent(a: State, evs: seq<Event>, p: Platform)
    requires a.loc == Busy && Setups(a.queue) == 0 && !a.enumerator
    ensures var r := Run(a, evs, p);
      r.loc == Busy && Setups(r.queue) == 0 && !r.enumerator
    decreases |evs|
  {
    if evs != [] {
      BusyStepIsInert(a, evs[0], p);
      BusyIsPermanent(Step(a, evs[0], p), evs[1..], p);
    }
  }

  /** A freshly constructed adjuster whose setup found a device with no
      sessions is stuck after one change of default device and its
      teardown: no device, no enumerator, and whatever happens next, it never
      binds again. */
  lemma DefaultDeviceChangeUnbindsForever(device: string, id: string, later: seq<Event>, p: Platform)
    ensures var ep := Endpoint(Some(device), []);
      var stuck := Run(Construct(), [Dispatch(ep), DefaultDeviceChanged(Render, Multimedia, id), Dispatch(ep)], p);
      && stuck.loc == Busy && !stuck.enumerator && stuck.device.None? && stuck.queue == []
      && Run(stuck, later, p).loc == Busy
      && !Run(stuck, later, p).enumerator
  {
    var ep := Endpoint(Some(device), []);
    var s0 := Construct();
    var s1 := Step(s0, Dispatch(ep), p);
    assert s1.loc == Bound && s1.enumerator && s1.queue == [];
    var s2 := Step(s1, DefaultDeviceChanged(Render, Multimedia, id), p);
    assert s2.loc == Busy && s2.queue == [Teardown];
    var s3 := Step(s2, Dispatch(ep), p);
    assert s3.loc == Busy && !s3.enumerator && s3.queue == [];
    assert Run(s0, [Dispatch(ep), DefaultDeviceChanged(Render, Multimedia, id), Dispatch(ep)], p) == s3 by {
      var evs := [Dispatch(ep), DefaultDeviceChanged(Render, Multimedia, id), Dispatch(ep)];
      assert evs[1..] == [DefaultDeviceChanged(Render, Multimedia, id), Dispatch(ep)];
      assert evs[1..][1..] == [Dispatch(ep)];
      assert Run(s2, [Dispatch(ep)], p) == Run(s3, [], p);
    }
    BusyIsPermanent(s3, later, p);
  }
}
