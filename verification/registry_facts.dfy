/** The collection of volume items: what the setup action fills it with,
    what new sessions and closed sessions do to it, and the invariant every
    reachable adjuster keeps: the listed items are distinct, each still has
    its session and its handler, and no handler of a listed item has been
    cleared. */
module RegistryFacts {
  import opened Wrappers
  import opened VolumeItems
  import opened Adjuster
  import opened SessionEvents
  import opened DeviceEvents
  import opened AdjusterSystem

  predicate Distinct<T(==)>(xs: seq<T>) {
    forall j, k :: 0 <= j < k < |xs| ==> xs[j] != xs[k]
  }

  // ---------------------------------------------------------------------
  // Collection.Remove

  /** `RemoveFirst` takes exactly one `x` away and keeps everything else. */
  lemma RemoveFirstMultiset<T>(xs: seq<T>, x: T)
    ensures x in xs ==> multiset(RemoveFirst(xs, x)) == multiset(xs) - multiset{x}
    ensures x !in xs ==> multiset(RemoveFirst(xs, x)) == multiset(xs)
  {
    if x in xs {
      var r := RemoveFirst(xs, x);
      var k := FirstIndex(xs, x);
      assert r == r[..k] + r[k..];
      calc {
        multiset(xs);
        multiset(r[..k] + [x] + r[k..]);
        multiset(r[..k]) + multiset{x} + multiset(r[k..]);
        multiset(r) + multiset{x};
      }
    }
  }

  /** A second copy of an item survives the removal of the first. */
  lemma RemoveFirstKeepsLaterCopies<T>(xs: seq<T>, x: T)
    requires multiset(xs)[x] >= 2
    ensures x in RemoveFirst(xs, x)
  {
    RemoveFirstMultiset(xs, x);
    assert multiset(RemoveFirst(xs, x))[x] >= 1;
  }

  /** On a list without repeats the removal takes the item out for good and
      keeps the rest distinct. */
  lemma RemoveFirstOfDistinct<T>(xs: seq<T>, x: T)
    requires Distinct(xs)
    ensures x !in RemoveFirst(xs, x)
    ensures Distinct(RemoveFirst(xs, x))
    ensures forall y :: y in RemoveFirst(xs, x) ==> y in xs
  {
    if x in xs {
      var k := FirstIndex(xs, x);
      var r := RemoveFirst(xs, x);
      RemoveFirstShifts(xs, x);
      forall j | 0 <= j < |r|
        ensures r[j] in xs && r[j] != x
      {
        var j' := if j < k then j else j + 1;
        assert r[j] == xs[j'] && xs[k] == x;
      }
      forall i, j | 0 <= i < j < |r|
        ensures r[i] != r[j]
      {
        var i', j' := if i < k then i else i + 1, if j < k then j else j + 1;
        assert r[i] == xs[i'] && r[j] == xs[j'];
      }
    }
  }

  /** The elements after the removed one move down by one place. */
  lemma RemoveFirstShifts<T>(xs: seq<T>, x: T)
    requires x in xs
    ensures forall j :: 0 <= j < |RemoveFirst(xs, x)| ==>
      RemoveFirst(xs, x)[j] == xs[if j < FirstIndex(xs, x) then j else j + 1]
  {
  }

  // ---------------------------------------------------------------------
  // The setup loop

  /** `Ids` peeled at the front. */
  lemma IdsCons(from: nat, n: nat)
    requires n > 0
    ensures Ids(from, n) == [from] + Ids(from + 1, n - 1)
  {
    assert forall k :: 0 <= k < n ==> Ids(from, n)[k] == ([from] + Ids(from + 1, n - 1))[k];
  }

  /** Every session wrapped without an exception. */
  predicate AllOk(ws: seq<Result<VolumeItem, IconError>>) {
    forall k :: 0 <= k < |ws| ==> ws[k].Ok?
  }

  /** `AllOk` peeled at the front. */
  lemma AllOkCons(ws: seq<Result<VolumeItem, IconError>>)
    requires ws != []
    ensures AllOk(ws) <==> ws[0].Ok? && AllOk(ws[1..])
  {
    assert forall k :: 1 <= k < |ws| ==> ws[k] == ws[1..][k - 1];
  }

  /** The loop ends the process exactly when one of the sessions fails to
      wrap. */
  lemma {:induction false} AddWrappedHalts(a: State, ws: seq<Result<VolumeItem, IconError>>)
    requires WrappedItems(ws)
    ensures AddWrapped(a, ws).halted == (a.halted || !AllOk(ws))
    decreases |ws|
  {
    if ws != [] {
      AllOkCons(ws);
      match ws[0]
      case Err(_) =>
      case Ok(item) => AddWrappedHalts(Attach(a, item), ws[1..]);
    }
  }

  /** When every session wraps, the loop appends one new identity per
      session, in order. */
  lemma {:induction false} AddWrappedItems(a: State, ws: seq<Result<VolumeItem, IconError>>)
    requires WrappedItems(ws) && AllOk(ws)
    ensures AddWrapped(a, ws).items == a.items + Ids(a.nextId, |ws|)
    ensures AddWrapped(a, ws).nextId == a.nextId + |ws|
    decreases |ws|
  {
    if ws != [] {
      AllOkCons(ws);
      var b := Attach(a, ws[0].value);
      AddWrappedItems(b, ws[1..]);
      IdsCons(a.nextId, |ws|);
      assert b.items + Ids(b.nextId, |ws| - 1) == a.items + ([a.nextId] + Ids(a.nextId + 1, |ws| - 1));
    }
  }

  /** The loop never touches an item that already exists. */
  lemma {:induction false} AddWrappedKeepsOld(a: State, ws: seq<Result<VolumeItem, IconError>>)
    requires WrappedItems(ws)
    ensures var r := AddWrapped(a, ws);
      && r.nextId >= a.nextId
      && forall i :: i in a.objects && i < a.nextId ==> i in r.objects && r.objects[i] == a.objects[i]
    decreases |ws|
  {
    if ws != [] {
      match ws[0]
      case Err(_) =>
      case Ok(item) => AddWrappedKeepsOld(Attach(a, item), ws[1..]);
    }
  }

  /** When every session wraps, the new item with identity `a.nextId + k`
      holds the `k`-th session, registered for events, and has its
      handler. */
  lemma {:induction false} AddWrappedNewItems(a: State, ws: seq<Result<VolumeItem, IconError>>)
    requires WrappedItems(ws) && AllOk(ws)
    ensures forall i :: a.nextId <= i < a.nextId + |ws| ==>
      && i in AddWrapped(a, ws).objects
      && AddWrapped(a, ws).objects[i].session == Some(ws[i - a.nextId].value.session.value.(eventClient := true))
      && AddWrapped(a, ws).objects[i].hasHandler
    decreases |ws|
  {
    if ws != [] {
      AllOkCons(ws);
      var tail := ws[1..];
      var b := Attach(a, ws[0].value);
      AddWrappedNewItems(b, tail);
      AddWrappedKeepsOld(b, tail);
      var r := AddWrapped(a, ws);
      assert r == AddWrapped(b, tail);
      forall i | a.nextId <= i < a.nextId + |ws|
        ensures i in r.objects
        ensures r.objects[i].session == Some(ws[i - a.nextId].value.session.value.(eventClient := true))
        ensures r.objects[i].hasHandler
      {
        if i == a.nextId {
          assert a.nextId in b.objects && a.nextId < b.nextId;
        } else {
          assert tail[i - b.nextId] == ws[i - a.nextId];
        }
      }
    }
  }

  /** Every session wraps exactly when every wrapping outcome is an item,
      and each item holds the session it wraps. */
  lemma WrapAllOutcomes(sessions: seq<Session>, p: Platform)
    ensures AllWrap(sessions, p) <==> AllOk(WrapAll(sessions, p))
    ensures forall k :: 0 <= k < |sessions| && WrapAll(sessions, p)[k].Ok? ==>
      WrapAll(sessions, p)[k].value.session == Some(sessions[k])
  {
    var ws := WrapAll(sessions, p);
    assert forall k :: 0 <= k < |sessions| ==> ws[k] == Wrap(sessions[k], p);
  }

  /** The setup action with a default device: the collection is cleared and
      then holds exactly one fresh identity per session the manager
      reports; a session that does not wrap ends the process instead. */
  lemma SetupFillsCollection(a: State, device: string, sessions: seq<Session>, p: Platform)
    ensures var r := RunSetup(a, Endpoint(Some(device), sessions), p);
      && r.sessionManager
      && r.halted == (a.halted || !AllWrap(sessions, p))
      && (AllWrap(sessions, p) ==> r.items == Ids(a.nextId, |sessions|))
  {
    var b := a.(enumerator := true, device := Some(device), sessionManager := true, items := []);
    var ws := WrapAll(sessions, p);
    assert RunSetup(a, Endpoint(Some(device), sessions), p) == AddWrapped(b, ws);
    WrapAllOutcomes(sessions, p);
    AddWrappedHalts(b, ws);
    if AllOk(ws) {
      AddWrappedItems(b, ws);
    }
  }

  /** The loop over the wrapped sessions: the item with identity
      `a.nextId + k` holds the `k`-th session, registered for events. */
  lemma AddSessionsWrapsEachSession(a: State, sessions: seq<Session>, p: Platform)
    requires AllOk(WrapAll(sessions, p))
    ensures forall i :: a.nextId <= i < a.nextId + |sessions| ==>
      && i in AddSessions(a, sessions, p).objects
      && AddSessions(a, sessions, p).objects[i].session == Some(sessions[i - a.nextId].(eventClient := true))
  {
    var ws := WrapAll(sessions, p);
    var r := AddWrapped(a, ws);
    AddWrappedNewItems(a, ws);
    WrapAllOutcomes(sessions, p);
    forall i | a.nextId <= i < a.nextId + |sessions|
      ensures i in r.objects && r.objects[i].session == Some(sessions[i - a.nextId].(eventClient := true))
    {
      var k := i - a.nextId;
      assert ws[k].value.session == Some(sessions[k]);
    }
  }

  /** When every session wraps, after the setup action the `k`-th listed
      item holds the `k`-th session the manager reported, registered for
      events. */
  lemma SetupListsEachSession(a: State, device: string, sessions: seq<Session>, p: Platform)
    requires AllOk(WrapAll(sessions, p))
    ensures var r := RunSetup(a, Endpoint(Some(device), sessions), p);
      && |r.items| == |sessions|
      && forall k :: 0 <= k < |sessions| ==>
           r.items[k] in r.objects && r.objects[r.items[k]].session == Some(sessions[k].(eventClient := true))
  {
    var b := a.(enumerator := true, device := Some(device), sessionManager := true, items := []);
    SetupWithDevice(a, device, sessions, p);
    ListsEachSession(b, sessions, p);
  }

  lemma SetupWithDevice(a: State, device: string, sessions: seq<Session>, p: Platform)
    ensures RunSetup(a, Endpoint(Some(device), sessions), p) ==
      AddSessions(a.(enumerator := true, device := Some(device), sessionManager := true, items := []), sessions, p)
  {
  }

  lemma ListsEachSession(b: State, sessions: seq<Session>, p: Platform)
    requires AllOk(WrapAll(sessions, p)) && b.items == []
    ensures var r := AddSessions(b, sessions, p);
      && |r.items| == |sessions|
      && forall k :: 0 <= k < |sessions| ==>
           r.items[k] in r.objects && r.objects[r.items[k]].session == Some(sessions[k].(eventClient := true))
  {
    var ws := WrapAll(sessions, p);
    var r := AddWrapped(b, ws);
    assert AddSessions(b, sessions, p) == r;
    AddWrappedItems(b, ws);
    AddWrappedNewItems(b, ws);
    WrapAllOutcomes(sessions, p);
    forall k | 0 <= k < |sessions|
      ensures r.items[k] in r.objects && r.objects[r.items[k]].session == Some(sessions[k].(eventClient := true))
    {
      var i := b.nextId + k;
      assert r.items[k] == i;
      assert ws[i - b.nextId].value.session == Some(sessions[k]);
    }
  }

  /** The teardown action leaves the collection (and the items shown for
      the old device) as it was. */
  lemma TeardownKeepsCollection(a: State, ep: Endpoint, p: Platform)
    requires a.queue != [] && a.queue[0] == Teardown
    ensures Step(a, Dispatch(ep), p).items == a.items
    ensures !a.halted ==> !Step(a, Dispatch(ep), p).enumerator
  {
  }

  /** Sessions are not compared: two notifications for the same session
      give two items. */
  lemma SessionsAreNotDeduplicated(a: State, s: Session, p: Platform)
    requires Wrap(s, p).Ok?
    ensures var r := RunAddSession(RunAddSession(a, s, p), s, p);
      && r.items == a.items + [a.nextId, a.nextId + 1]
      && r.objects[a.nextId].session == r.objects[a.nextId + 1].session == Some(s.(eventClient := true))
  {
  }

  // ---------------------------------------------------------------------
  // Closing a session

  /** Once its item has been cleared, a handler ignores every callback. */
  lemma DetachedHandlerIsSilent(a: State, h: ItemId, st: SessionState, p: Platform)
    requires h in a.objects && h in a.detached
    ensures Step(a, ChannelVolumeChanged(h), p) == a
    ensures Step(a, VolumeChanged(h), p) == a
    ensures Step(a, SessionDisconnected(h), p) == a
    ensures Step(a, SessionStateChanged(h, st), p) == a
  {
  }

  /** Name, icon and grouping changes are never acted on, and a session
      state other than expired is ignored too. */
  lemma IgnoredSessionCallbacks(a: State, h: ItemId, st: SessionState, p: Platform)
    ensures Step(a, DisplayNameChanged(h), p) == a
    ensures Step(a, IconPathChanged(h), p) == a
    ensures Step(a, GroupingParamChanged(h), p) == a
    ensures st != Expired ==> Step(a, SessionStateChanged(h, st), p) == a
  {
  }

  /** Expiry closes a session exactly as a disconnect does. */
  lemma ExpiryClosesLikeDisconnect(a: State, h: ItemId, p: Platform)
    requires h in a.objects && !a.halted
    ensures Step(a, SessionStateChanged(h, Expired), p) == Step(a, SessionDisconnected(h), p)
  {
  }

  /** Closing twice is closing once. */
  lemma CloseIsIdempotent(a: State, h: ItemId)
    requires h in a.objects
    ensures RunClose(RunClose(a, h), h) == RunClose(a, h)
  {
  }

  /** While its item is set, a handler posts a callback's work. */
  lemma LiveHandlerPosts(a: State, h: ItemId, p: Platform)
    requires h in a.objects && h !in a.detached && !a.halted
    ensures Step(a, VolumeChanged(h), p) == a.(queue := a.queue + [NotifyVolumeAndMute(h)])
    ensures Step(a, ChannelVolumeChanged(h), p) == a.(queue := a.queue + [NotifyVolume(h)])
    ensures Step(a, SessionDisconnected(h), p) == a.(queue := a.queue + [Close(h)])
  {
  }

  /** The dispatcher runs the oldest posted notification for `h`. */
  lemma DispatchRunsNotification(a: State, h: ItemId, ep: Endpoint, p: Platform)
    requires !a.halted && a.queue != [] && a.queue[0] == NotifyVolumeAndMute(h) && h in a.objects
    ensures Step(a, Dispatch(ep), p) == RunNotify(a.(queue := a.queue[1..]), h, true)
  {
  }

  /** The dispatcher runs the oldest posted close for `h`. */
  lemma DispatchRunsClose(a: State, h: ItemId, ep: Endpoint, p: Platform)
    requires !a.halted && a.queue != [] && a.queue[0] == Close(h) && h in a.objects
    ensures Step(a, Dispatch(ep), p) == RunClose(a.(queue := a.queue[1..]), h)
  {
  }

  /** A volume notification posted before the close runs harmlessly. */
  lemma NotificationBeforeCloseIsHarmless(a: State, h: ItemId, ep: Endpoint, p: Platform)
    requires h in a.objects && h !in a.detached && a.queue == [] && !a.halted
    ensures var r := Run(a, [VolumeChanged(h), SessionDisconnected(h), Dispatch(ep), Dispatch(ep)], p);
      && !r.halted && r.queue == [] && h in r.detached && r.items == RemoveFirst(a.items, h)
  {
    var evs := [VolumeChanged(h), SessionDisconnected(h), Dispatch(ep), Dispatch(ep)];
    var s2 := a.(queue := [NotifyVolumeAndMute(h), Close(h)]);
    var s3 := RunNotify(a.(queue := [Close(h)]), h, true);
    PostsInOrder(a, h, p);
    DispatchRunsNotification(s2, h, ep, p);
    assert s2.(queue := s2.queue[1..]) == a.(queue := [Close(h)]);
    DispatchRunsClose(s3, h, ep, p);
    RunFour(a, evs, p);
  }

  /** Both callbacks arrive while the item is still set, so both are
      posted; the close runs first and clears the handler's item, and the
      notification then dereferences it and ends the process. */
  lemma CloseBeforeNotificationEndsProcess(a: State, h: ItemId, ep: Endpoint, p: Platform)
    requires h in a.objects && h !in a.detached && a.queue == [] && !a.halted
    ensures Run(a, [SessionDisconnected(h), VolumeChanged(h), Dispatch(ep), Dispatch(ep)], p).halted
  {
    var evs := [SessionDisconnected(h), VolumeChanged(h), Dispatch(ep), Dispatch(ep)];
    var s2 := a.(queue := [Close(h), NotifyVolumeAndMute(h)]);
    var s3 := RunClose(a.(queue := [NotifyVolumeAndMute(h)]), h);
    PostsInOrder(a, h, p);
    DispatchRunsClose(s2, h, ep, p);
    assert s2.(queue := s2.queue[1..]) == a.(queue := [NotifyVolumeAndMute(h)]);
    DispatchRunsNotification(s3, h, ep, p);
    RunFour(a, evs, p);
  }

  /** A handler whose item is set posts two callbacks in arrival order. */
  lemma PostsInOrder(a: State, h: ItemId, p: Platform)
    requires h in a.objects && h !in a.detached && a.queue == [] && !a.halted
    ensures Step(Step(a, VolumeChanged(h), p), SessionDisconnected(h), p) ==
      a.(queue := [NotifyVolumeAndMute(h), Close(h)])
    ensures Step(Step(a, SessionDisconnected(h), p), VolumeChanged(h), p) ==
      a.(queue := [Close(h), NotifyVolumeAndMute(h)])
  {
    var n, c := NotifyVolumeAndMute(h), Close(h);
    LiveHandlerPosts(a, h, p);
    assert a.queue + [n] == [n] && a.queue + [c] == [c];
    LiveHandlerPosts(a.(queue := [n]), h, p);
    LiveHandlerPosts(a.(queue := [c]), h, p);
    assert [n] + [c] == [n, c] && [c] + [n] == [c, n];
  }

  /** `Run` over four events is four steps. */
  lemma RunFour(a: State, evs: seq<Event>, p: Platform)
    requires |evs| == 4
    ensures Run(a, evs, p) == Step(Step(Step(Step(a, evs[0], p), evs[1], p), evs[2], p), evs[3], p)
  {
    var s1 := Step(a, evs[0], p);
    var s2 := Step(s1, evs[1], p);
    var s3 := Step(s2, evs[2], p);
    assert Run(a, evs, p) == Run(s1, evs[1..], p);
    assert Run(s1, evs[1..], p) == Run(s2, evs[2..], p) by { assert evs[1..][1..] == evs[2..]; }
    assert Run(s2, evs[2..], p) == Run(s3, evs[3..], p) by { assert evs[2..][1..] == evs[3..]; }
    assert Run(s3, evs[3..], p) == Run(Step(s3, evs[3], p), [], p) by { assert evs[3..][1..] == []; }
  }

  // ---------------------------------------------------------------------
  // The registry invariant

  ghost predicate Consistent(a: State) {
    && (forall i :: i in a.objects ==> i < a.nextId)
    && a.detached <= a.objects.Keys
    && Distinct(a.items)
    && (forall k :: 0 <= k < |a.items| ==> Listed(a, a.items[k]))
  }

  /** A listed item exists, its handler is live, and it still has both its
      session and its handler. */
  ghost predicate Listed(a: State, i: ItemId) {
    i in a.objects && i !in a.detached && a.objects[i].session.Some? && a.objects[i].hasHandler
  }

  lemma EmptyIsConsistent()
    ensures Consistent(Empty) && Consistent(Construct())
  {
  }

  lemma AttachKeepsConsistent(a: State, item: VolumeItem)
    requires Consistent(a) && item.session.Some?
    ensures Consistent(Attach(a, item))
  {
    var r := Attach(a, item);
    forall k | 0 <= k < |r.items|
      ensures Listed(r, r.items[k])
    {
      if k < |a.items| {
        assert Listed(a, a.items[k]);
      }
    }
    forall j, k | 0 <= j < k < |r.items|
      ensures r.items[j] != r.items[k]
    {
      if k == |a.items| {
        assert Listed(a, a.items[j]);
      }
    }
  }

  lemma {:induction false} AddWrappedKeepsConsistent(a: State, ws: seq<Result<VolumeItem, IconError>>)
    requires Consistent(a) && WrappedItems(ws)
    ensures Consistent(AddWrapped(a, ws))
    decreases |ws|
  {
    if ws != [] {
      match ws[0]
      case Err(_) =>
      case Ok(item) =>
        AttachKeepsConsistent(a, item);
        AddWrappedKeepsConsistent(Attach(a, item), ws[1..]);
    }
  }

  lemma CloseKeepsConsistent(a: State, h: ItemId)
    requires Consistent(a) && h in a.objects
    ensures Consistent(RunClose(a, h))
  {
    if h !in a.detached {
      var r := RunClose(a, h);
      RemoveFirstOfDistinct(a.items, h);
      forall k | 0 <= k < |r.items|
        ensures Listed(r, r.items[k])
      {
        var i := r.items[k];
        assert i in a.items && i != h;
        var j :| 0 <= j < |a.items| && a.items[j] == i;
        assert Listed(a, a.items[j]);
      }
    }
  }

  /** Replacing an object by one with the same session presence and
      handler keeps the invariant. */
  lemma UpdateKeepsConsistent(a: State, i: ItemId, v: VolumeItem)
    requires Consistent(a) && i in a.objects
    requires v.session.Some? == a.objects[i].session.Some? && v.hasHandler == a.objects[i].hasHandler
    ensures Consistent(a.(objects := a.objects[i := v]))
  {
    var r := a.(objects := a.objects[i := v]);
    forall k | 0 <= k < |r.items|
      ensures Listed(r, r.items[k])
    {
      assert Listed(a, a.items[k]);
    }
  }

  lemma RunNextKeepsConsistent(a: State, ep: Endpoint, p: Platform)
    requires Consistent(a)
    ensures Consistent(RunNext(a, ep, p))
  {
    if a.queue != [] {
      var rest := a.(queue := a.queue[1..]);
      assert Consistent(rest) by {
        forall k | 0 <= k < |rest.items|
          ensures Listed(rest, rest.items[k])
        {
          assert Listed(a, a.items[k]);
        }
      }
      match a.queue[0]
      case Setup =>
        SetupKeepsConsistent(rest, ep, p);
      case Teardown =>
        assert RunNext(a, ep, p) == RunTeardown(rest);
        assert Consistent(RunTeardown(rest)) by {
          forall k | 0 <= k < |rest.items|
            ensures Listed(RunTeardown(rest), rest.items[k])
          {
            assert Listed(rest, rest.items[k]);
          }
        }
      case AddSession(s) =>
        if Wrap(s, p).Ok? {
          AttachKeepsConsistent(rest, Wrap(s, p).value);
        }
      case NotifyVolume(h) =>
        if h in rest.objects {
          NotifyKeepsConsistent(rest, h, false);
        }
      case NotifyVolumeAndMute(h) =>
        if h in rest.objects {
          NotifyKeepsConsistent(rest, h, true);
        }
      case Close(h) =>
        if h in rest.objects {
          CloseKeepsConsistent(rest, h);
        }
    }
  }

  lemma SetupKeepsConsistent(a: State, ep: Endpoint, p: Platform)
    requires Consistent(a)
    ensures Consistent(RunSetup(a, ep, p))
  {
    var b := a.(enumerator := true, device := ep.defaultDevice);
    if ep.defaultDevice.Some? {
      AddWrappedKeepsConsistent(b.(sessionManager := true, items := []), WrapAll(ep.sessions, p));
    } else {
      var c := a.(enumerator := true, halted := true);
      forall k | 0 <= k < |c.items|
        ensures Listed(c, c.items[k])
      {
        assert Listed(a, a.items[k]);
      }
    }
  }

  lemma NotifyKeepsConsistent(a: State, h: ItemId, bothVolumeAndMute: bool)
    requires Consistent(a) && h in a.objects
    ensures Consistent(RunNotify(a, h, bothVolumeAndMute))
  {
    if h in a.detached {
      forall k | 0 <= k < |a.items|
        ensures Listed(a.(halted := true), a.items[k])
      {
        assert Listed(a, a.items[k]);
      }
    } else {
      var item := NotifyVolumeChanged(a.objects[h]);
      UpdateKeepsConsistent(a, h, if bothVolumeAndMute then NotifyMuteChanged(item) else item);
    }
  }

  lemma StepKeepsConsistent(a: State, e: Event, p: Platform)
    requires Consistent(a)
    ensures Consistent(Step(a, e, p))
  {
    if !a.halted {
      match e
      case UserSetVolume(i, v) =>
        if i in a.objects {
          UpdateKeepsConsistent(a, i, SetVolumeLevel(a.objects[i], v));
        }
      case UserSetMuted(i, m) =>
        if i in a.objects {
          UpdateKeepsConsistent(a, i, SetIsMuted(a.objects[i], m));
        }
      case UserToggleMute(i) =>
        if i in a.objects {
          UpdateKeepsConsistent(a, i, ToggleMute(a.objects[i]));
        }
      case Dispatch(ep) =>
        RunNextKeepsConsistent(a, ep, p);
      case _ =>
        CallbackKeepsRegistry(a, e, p);
        SameRegistryConsistent(a, Step(a, e, p));
    } else {
      SameRegistryConsistent(a, Step(a, e, p));
    }
  }

  /** Callbacks of the audio subsystem and `Dispose` only post work and move
      the guard: the collection, the objects and the cleared handlers are
      untouched until the dispatcher runs. */
  lemma CallbackKeepsRegistry(a: State, e: Event, p: Platform)
    requires !e.Dispatch? && !e.UserSetVolume? && !e.UserSetMuted? && !e.UserToggleMute?
    ensures var r := Step(a, e, p);
      r.items == a.items && r.objects == a.objects && r.detached == a.detached && r.nextId == a.nextId
  {
  }

  /** The invariant only looks at the collection, the objects, the cleared
      handlers and the next identity. */
  lemma SameRegistryConsistent(a: State, b: State)
    requires Consistent(a)
    requires b.items == a.items && b.objects == a.objects && b.detached == a.detached && b.nextId == a.nextId
    ensures Consistent(b)
  {
    forall k | 0 <= k < |b.items|
      ensures Listed(b, b.items[k])
    {
      assert Listed(a, a.items[k]);
    }
  }

  lemma {:induction false} RunKeepsConsistent(a: State, evs: seq<Event>, p: Platform)
    requires Consistent(a)
    ensures Consistent(Run(a, evs, p))
    decreases |evs|
  {
    if evs != [] {
      StepKeepsConsistent(a, evs[0], p);
      RunKeepsConsistent(Step(a, evs[0], p), evs[1..], p);
    }
  }

  /** In every reachable adjuster the collection lists each item once, and
      each listed item still has its session and a live handler. */
  lemma ListedItemsAreLive(evs: seq<Event>, p: Platform)
    ensures var r := Run(Construct(), evs, p);
      && Distinct(r.items)
      && forall k :: 0 <= k < |r.items| ==>
           r.items[k] in r.objects && r.items[k] !in r.detached
           && r.objects[r.items[k]].session.Some? && r.objects[r.items[k]].hasHandler
  {
    EmptyIsConsistent();
    RunKeepsConsistent(Construct(), evs, p);
    var r := Run(Construct(), evs, p);
    forall k | 0 <= k < |r.items|
      ensures r.items[k] in r.objects && r.items[k] !in r.detached
      ensures r.objects[r.items[k]].session.Some? && r.objects[r.items[k]].hasHandler
    {
      assert Listed(r, r.items[k]);
    }
  }
}
