/**
 * The invariant of every state the coordinator can reach from Init, and
 * the proof that each event preserves it.
 */
module CoordinatorInvariant {
  import opened CoordinatorModel

  /* ---------------- Counting calls ---------------- */

  lemma {:induction false} CountAppend(a: seq<Effect>, b: seq<Effect>, x: Effect)
    ensures Count(a + b, x) == Count(a, x) + Count(b, x)
  {
    if a == [] {
      assert a + b == b;
    } else {
      assert (a + b)[1..] == a[1..] + b;
      CountAppend(a[1..], b, x);
    }
  }

  lemma {:induction false} RegistrationsAppend(a: seq<Effect>, b: seq<Effect>)
    ensures Registrations(a + b) == Registrations(a) + Registrations(b)
  {
    if a == [] {
      assert a + b == b;
    } else {
      var h := if IsRegistration(a[0]) then [a[0]] else [];
      assert (a + b)[0] == a[0];
      assert (a + b)[1..] == a[1..] + b;
      RegistrationsAppend(a[1..], b);
      assert Registrations(a + b) == h + (Registrations(a[1..]) + Registrations(b));
      assert h + (Registrations(a[1..]) + Registrations(b)) == (h + Registrations(a[1..])) + Registrations(b);
    }
  }

  lemma {:induction false} AllRegistrations(log: seq<Effect>)
    requires forall e | e in log :: IsRegistration(e)
    ensures Registrations(log) == log
  {
    if log != [] {
      assert log[0] in log;
      AllRegistrations(log[1..]);
    }
  }

  lemma {:induction false} NoRegistrations(log: seq<Effect>)
    requires forall e | e in log :: !IsRegistration(e)
    ensures Registrations(log) == []
  {
    if log != [] {
      assert log[0] in log;
      NoRegistrations(log[1..]);
    }
  }

  lemma {:induction false} CountAbsent(log: seq<Effect>, x: Effect)
    requires x !in log
    ensures Count(log, x) == 0
  {
    if log != [] {
      assert log[0] != x && forall e | e in log[1..] :: e in log;
      CountAbsent(log[1..], x);
    }
  }

  /** The calls the invariant counts. */
  predicate Tracked(e: Effect) {
    e == SetShowVideo(true) || e == AmbientPlay(InteractionRetry) || e == AmbientPlay(OverlayCleanupResume) ||
    e == DisposeRenderer || e == FadeInStart || e == OverlayPlay || IsRegistration(e)
  }

  /** Appending calls the invariant does not track leaves the count of a tracked call alone. */
  lemma UntrackedAt(log: seq<Effect>, extra: seq<Effect>, x: Effect)
    requires Tracked(x) && forall e | e in extra :: !Tracked(e)
    ensures Count(log + extra, x) == Count(log, x)
  {
    CountAbsent(extra, x);
    CountAppend(log, extra, x);
  }

  /** Appending one call adds one to its own count and changes no other. */
  lemma AppendOneAt(log: seq<Effect>, e: Effect, x: Effect)
    ensures Count(log + [e], x) == Count(log, x) + (if e == x then 1 else 0)
  {
    CountAppend(log, [e], x);
    assert [e][1..] == [];
  }

  /** Appending untracked calls leaves every count the invariant keeps alone. */
  lemma UntrackedAppend(log: seq<Effect>, extra: seq<Effect>)
    requires forall e | e in extra :: !Tracked(e)
    ensures Count(log + extra, SetShowVideo(true)) == Count(log, SetShowVideo(true))
    ensures Count(log + extra, AmbientPlay(InteractionRetry)) == Count(log, AmbientPlay(InteractionRetry))
    ensures Count(log + extra, AmbientPlay(OverlayCleanupResume)) == Count(log, AmbientPlay(OverlayCleanupResume))
    ensures Count(log + extra, DisposeRenderer) == Count(log, DisposeRenderer)
    ensures Count(log + extra, FadeInStart) == Count(log, FadeInStart)
    ensures Count(log + extra, OverlayPlay) == Count(log, OverlayPlay)
    ensures Registrations(log + extra) == Registrations(log)
  {
    UntrackedAt(log, extra, SetShowVideo(true));
    UntrackedAt(log, extra, AmbientPlay(InteractionRetry));
    UntrackedAt(log, extra, AmbientPlay(OverlayCleanupResume));
    UntrackedAt(log, extra, DisposeRenderer);
    UntrackedAt(log, extra, FadeInStart);
    UntrackedAt(log, extra, OverlayPlay);
    NoRegistrations(extra);
    RegistrationsAppend(log, extra);
    assert Registrations(log) + [] == Registrations(log);
  }

  /** Appending one tracked call `x` other than a registration adds one to its count only. */
  lemma TrackedAppend(log: seq<Effect>, x: Effect)
    requires Tracked(x) && !IsRegistration(x)
    ensures Count(log + [x], SetShowVideo(true)) == Count(log, SetShowVideo(true)) + (if x == SetShowVideo(true) then 1 else 0)
    ensures Count(log + [x], AmbientPlay(InteractionRetry)) ==
            Count(log, AmbientPlay(InteractionRetry)) + (if x == AmbientPlay(InteractionRetry) then 1 else 0)
    ensures Count(log + [x], AmbientPlay(OverlayCleanupResume)) ==
            Count(log, AmbientPlay(OverlayCleanupResume)) + (if x == AmbientPlay(OverlayCleanupResume) then 1 else 0)
    ensures Count(log + [x], DisposeRenderer) == Count(log, DisposeRenderer) + (if x == DisposeRenderer then 1 else 0)
    ensures Count(log + [x], FadeInStart) == Count(log, FadeInStart) + (if x == FadeInStart then 1 else 0)
    ensures Count(log + [x], OverlayPlay) == Count(log, OverlayPlay) + (if x == OverlayPlay then 1 else 0)
    ensures Registrations(log + [x]) == Registrations(log)
  {
    AppendOneAt(log, x, SetShowVideo(true));
    AppendOneAt(log, x, AmbientPlay(InteractionRetry));
    AppendOneAt(log, x, AmbientPlay(OverlayCleanupResume));
    AppendOneAt(log, x, DisposeRenderer);
    AppendOneAt(log, x, FadeInStart);
    AppendOneAt(log, x, OverlayPlay);
    NoRegistrations([x]);
    RegistrationsAppend(log, [x]);
    assert Registrations(log) + [] == Registrations(log);
  }

  lemma MountCallsKept()
    ensures forall e | e in MountCalls :: !Tracked(e) || IsRegistration(e)
  {
  }

  lemma AddCallsAreRegistrations()
    ensures forall e | e in AddCalls :: IsRegistration(e)
  {
  }

  lemma RemoveCallsAreRegistrations()
    ensures forall e | e in RemoveCalls :: IsRegistration(e)
  {
  }

  lemma MountTailUnregistered()
    ensures forall e | e in MountTail :: !IsRegistration(e)
  {
  }

  lemma ReleaseUnregistered(hasAmbient: bool)
    ensures forall e | e in ReleaseCalls(hasAmbient) :: !IsRegistration(e)
  {
  }

  /** The mount effect registers exactly the five listeners, in order. */
  lemma MountCallsRegister()
    ensures Registrations(MountCalls) == AddCalls
  {
    AddCallsAreRegistrations();
    AllRegistrations(AddCalls);
    MountTailUnregistered();
    NoRegistrations(MountTail);
    RegistrationsAppend(AddCalls, MountTail);
    assert AddCalls + [] == AddCalls;
  }

  lemma ReleaseAmbientUntracked(hasAmbient: bool)
    ensures forall e | e in (if hasAmbient then ReleaseAmbientCalls else []) :: !Tracked(e)
  {
  }

  lemma ReleaseSceneCount(x: Effect)
    requires Tracked(x)
    ensures Count(ReleaseSceneCalls, x) == (if x == DisposeRenderer then 1 else 0)
  {
    var t2 := [DisposeRenderer, KillTriggers];
    var t1 := [KillTriggers];
    assert ReleaseSceneCalls[1..] == t2 && t2[1..] == t1 && t1[1..] == [];
    assert Count(t1, x) == (if x == KillTriggers then 1 else 0);
    assert Count(t2, x) == (if x == DisposeRenderer then 1 else 0) + Count(t1, x);
  }

  /** The mount cleanup's calls hold one disposal and none of the other counted calls. */
  lemma CleanupCallsCount(hasAmbient: bool, x: Effect)
    requires Tracked(x) && !IsRegistration(x)
    ensures Count(CleanupCalls(hasAmbient), x) == (if x == DisposeRenderer then 1 else 0)
  {
    var release := if hasAmbient then ReleaseAmbientCalls else [];
    RemoveCallsAreRegistrations();
    ReleaseAmbientUntracked(hasAmbient);
    CountAbsent(RemoveCalls, x);
    CountAbsent(release, x);
    ReleaseSceneCount(x);
    CountAppend(release, ReleaseSceneCalls, x);
    CountAppend(RemoveCalls, ReleaseCalls(hasAmbient), x);
  }

  /** The mount cleanup removes exactly the five listeners, in order. */
  lemma CleanupCallsRegister(hasAmbient: bool)
    ensures Registrations(CleanupCalls(hasAmbient)) == RemoveCalls
  {
    RemoveCallsAreRegistrations();
    AllRegistrations(RemoveCalls);
    ReleaseUnregistered(hasAmbient);
    NoRegistrations(ReleaseCalls(hasAmbient));
    RegistrationsAppend(RemoveCalls, ReleaseCalls(hasAmbient));
    assert RemoveCalls + [] == RemoveCalls;
  }

  /* ---------------- The invariant ---------------- */

  /** The latches and the overlay bookkeeping. */
  ghost predicate OverlayInv(s: State) {
    (s.view.showVideo ==> s.refs.fullscreenTriggered) &&
    (s.overlay.committed ==> s.refs.fullscreenTriggered) &&
    (s.overlay.armed ==> s.refs.fullscreenTriggered && s.phase == Live) &&
    (s.overlay.fadeInPending ==> s.refs.fullscreenTriggered) &&
    (s.overlay.fadeOutPending ==> s.view.showProjects) &&
    s.overlay.present == (s.phase == Live && s.overlay.committed) &&
    (s.phase == Fresh ==> !s.refs.fullscreenTriggered) &&
    s.overflow == (if s.phase == Live && s.overlay.committed then "hidden" else "")
  }

  /** What the mount effect holds exactly while the component is mounted. */
  ghost predicate SceneInv(s: State) {
    var held := s.phase == Live && s.scene.attached;
    s.scene.listeners == (if held then AllListeners else {}) &&
    s.scene.triggerAlive == held &&
    s.scene.framePending == held &&
    s.scene.rendererDisposed == (s.phase == Gone && s.scene.attached) &&
    (s.autoplayPending ==> held && !s.overlay.committed && s.ambient.Some? && !s.ambient.value.paused) &&
    s.ambient.Some? == s.scene.attached &&
    (s.phase == Fresh ==> !s.scene.attached) &&
    (s.phase == Gone && s.scene.attached ==> s.ambient == Some(Video(true, "")))
  }

  /** What the call log records about the latches, the renderer and the fade-in. */
  ghost predicate LogInv(s: State) {
    Count(s.log, SetShowVideo(true)) == (if s.refs.fullscreenTriggered then 1 else 0) &&
    Count(s.log, AmbientPlay(InteractionRetry)) <= (if s.refs.playbackRequested then 1 else 0) &&
    Count(s.log, AmbientPlay(OverlayCleanupResume)) == 0 &&
    Count(s.log, DisposeRenderer) == (if s.scene.rendererDisposed then 1 else 0) &&
    Count(s.log, OverlayPlay) + (if s.overlay.fadeInPending then 1 else 0) <= Count(s.log, FadeInStart) &&
    (s.autoplayPending || s.phase == Fresh ==> Count(s.log, FadeInStart) == 0)
  }

  /** The listeners were registered by the mount effect and removed by its cleanup, each once. */
  ghost predicate ListenerInv(s: State) {
    Registrations(s.log) ==
      (if s.scene.attached then AddCalls else []) +
      (if s.scene.attached && s.phase == Gone then RemoveCalls else [])
  }

  ghost predicate Inv(s: State) {
    OverlayInv(s) && SceneInv(s) && LogInv(s) && ListenerInv(s)
  }

  lemma InitInv()
    ensures Inv(Init)
  {
  }

  /* ---------------- Preservation, event by event ---------------- */

  /** What the first commit does to each part of the state. */
  lemma MountShape(s: State, c: bool, p: bool, ok: bool)
    requires Inv(s) && s.phase == Fresh
    ensures var r := OnMount(s, c, p, ok);
      r.phase == Live && r.refs == s.refs && r.view == s.view &&
      r.overlay == s.overlay && r.overflow == "" &&
      r.scene == (if c then Scene(true, true, true, false, AllListeners) else s.scene) &&
      r.ambient == (if c then Some(Video(!ok, AmbientSource)) else s.ambient) &&
      r.autoplayPending == (c && p && ok) &&
      r.log == s.log + [SetOverflow("")] + (if c then MountCalls else [])
  {
    var s0 := CommitRender(s.(phase := Live));
    var s1 := OverflowEffect(s0);
    var s2 := MountEffect(s1, c, p, ok);
    assert !s0.overlay.committed && !s0.overlay.present;
    assert OnMount(s, c, p, ok) == s2.(overlay := s2.overlay.(armed := false));
  }

  /** The calls of the first commit change the count of no tracked call but a registration. */
  lemma MountLogAt(log: seq<Effect>, c: bool, x: Effect)
    requires Tracked(x) && !IsRegistration(x)
    ensures Count(log + [SetOverflow("")] + (if c then MountCalls else []), x) == Count(log, x)
  {
    var l1 := log + [SetOverflow("")];
    UntrackedAt(log, [SetOverflow("")], x);
    if c {
      MountCallsKept();
      CountAbsent(MountCalls, x);
      CountAppend(l1, MountCalls, x);
    } else {
      assert l1 + [] == l1;
    }
  }

  /** The calls of the first commit append the five registrations. */
  lemma MountRegistrations(log: seq<Effect>, c: bool)
    ensures Registrations(log + [SetOverflow("")] + (if c then MountCalls else [])) ==
            Registrations(log) + (if c then AddCalls else [])
  {
    var l1 := log + [SetOverflow("")];
    UntrackedAppend(log, [SetOverflow("")]);
    if c {
      RegistrationsAppend(l1, MountCalls);
      MountCallsRegister();
    } else {
      assert l1 + [] == l1;
      assert Registrations(log) + [] == Registrations(log);
    }
  }

  lemma MountKeepsLog(s: State, c: bool, p: bool, ok: bool)
    requires Inv(s)
    ensures LogInv(OnMount(s, c, p, ok))
  {
    if s.phase == Fresh {
      MountShape(s, c, p, ok);
      MountLogAt(s.log, c, SetShowVideo(true));
      MountLogAt(s.log, c, AmbientPlay(InteractionRetry));
      MountLogAt(s.log, c, AmbientPlay(OverlayCleanupResume));
      MountLogAt(s.log, c, DisposeRenderer);
      MountLogAt(s.log, c, FadeInStart);
      MountLogAt(s.log, c, OverlayPlay);
    }
  }

  lemma MountKeepsListeners(s: State, c: bool, p: bool, ok: bool)
    requires Inv(s)
    ensures ListenerInv(OnMount(s, c, p, ok))
  {
    if s.phase == Fresh {
      MountShape(s, c, p, ok);
      MountRegistrations(s.log, c);
      assert [] + AddCalls == AddCalls;
    }
  }

  lemma MountKeepsInv(s: State, c: bool, p: bool, ok: bool)
    requires Inv(s)
    ensures Inv(OnMount(s, c, p, ok))
  {
    if s.phase == Fresh {
      MountShape(s, c, p, ok);
    }
    MountKeepsLog(s, c, p, ok);
    MountKeepsListeners(s, c, p, ok);
  }

  lemma AutoplayKeepsInv(s: State, resolved: bool)
    requires Inv(s)
    ensures Inv(OnAutoplaySettled(s, resolved))
  {
  }

  lemma GestureKeepsInv(s: State, g: Gesture, ok: bool)
    requires Inv(s)
    ensures Inv(OnGesture(s, g, ok))
  {
    var r := OnGesture(s, g, ok);
    if r.log != s.log {
      TrackedAppend(s.log, AmbientPlay(InteractionRetry));
    }
  }

  lemma EnterKeepsInv(s: State, ok: bool)
    requires Inv(s)
    ensures Inv(OnEnter(s, ok))
  {
    var r := OnEnter(s, ok);
    if r.log != s.log {
      UntrackedAppend(s.log, [AmbientPlay(ScrollEnterResume)]);
    }
  }

  lemma AmbientEndedKeepsInv(s: State)
    requires Inv(s)
    ensures Inv(OnAmbientEnded(s))
  {
  }

  lemma LeaveBackKeepsInv(s: State)
    requires Inv(s)
    ensures Inv(OnLeaveBack(s))
  {
  }

  lemma UpdateKeepsInv(s: State, progress: real)
    requires Inv(s)
    ensures Inv(OnUpdate(s, progress))
  {
    var r := OnUpdate(s, progress);
    if r.log != s.log {
      TrackedAppend(s.log, SetShowVideo(true));
    }
  }

  /**
   * A re-render that shows the overlay: the overflow effect re-runs and hides
   * the page scroll, the overlay effect pauses the ambient video and starts
   * the fade-in; nothing else changes.
   */
  lemma RerenderShows(s: State, ok: bool)
    requires s.phase == Live && s.view.showVideo && !s.overlay.committed && s.refs.fullscreenTriggered
    ensures OnRerender(s, ok) ==
      s.(overlay := Overlay(true, true, true, true, s.overlay.fadeOutPending),
         overflow := "hidden",
         ambient := if s.ambient.Some? then Some(s.ambient.value.(paused := true)) else s.ambient,
         autoplayPending := s.autoplayPending && s.ambient.None?,
         log := s.log + ShowCalls(s.ambient.Some?) + [FadeInStart])
  {
    var s1 := s.(overlay := s.overlay.(committed := true, present := true, armed := false),
                 overflow := "", log := s.log + [SetOverflow("")]);
    assert OverlayCleanup(OverflowCleanup(CommitRender(s)), ok) == s1;
    var s2 := s1.(overflow := "hidden", log := s1.log + [SetOverflow("hidden")]);
    assert OverflowEffect(s1) == s2;
    assert s.log + ShowCalls(s.ambient.Some?) == s2.log + (if s.ambient.Some? then [AmbientPause] else []);
  }

  /**
   * A re-render that hides the overlay: both effects' cleanups run, the
   * overflow effect restores the page scroll, and the overlay effect does
   * nothing more; the ambient video is not resumed.
   */
  lemma RerenderHides(s: State, ok: bool)
    requires s.phase == Live && !s.view.showVideo && s.overlay.committed && s.refs.fullscreenTriggered
    ensures OnRerender(s, ok) ==
      s.(overlay := s.overlay.(committed := false, present := false, armed := false),
         overflow := "",
         log := s.log + [SetOverflow(""), SetOverflow("")])
  {
    var s1 := s.(overlay := s.overlay.(committed := false, present := false, armed := false),
                 overflow := "", log := s.log + [SetOverflow("")]);
    assert OverlayCleanup(OverflowCleanup(CommitRender(s)), ok) == s1;
    assert s1.log + [SetOverflow("")] == s.log + [SetOverflow(""), SetOverflow("")];
  }

  /** The calls of a re-render that showed the overlay. */
  function ShowCalls(hasAmbient: bool): (calls: seq<Effect>) {
    [SetOverflow(""), SetOverflow("hidden")] + (if hasAmbient then [AmbientPause] else [])
  }

  /** A re-render that showed the overlay adds one fade-in and changes the count of no other tracked call. */
  lemma ShowLogAt(log: seq<Effect>, hasAmbient: bool, x: Effect)
    requires Tracked(x)
    ensures Count(log + ShowCalls(hasAmbient) + [FadeInStart], x) == Count(log, x) + (if x == FadeInStart then 1 else 0)
  {
    UntrackedAt(log, ShowCalls(hasAmbient), x);
    AppendOneAt(log + ShowCalls(hasAmbient), FadeInStart, x);
  }

  /** The log part of the invariant survives the calls of a re-render that showed the overlay. */
  lemma ShowKeepsLog(s: State, r: State)
    requires LogInv(s)
    requires r.refs == s.refs && r.scene == s.scene && r.overlay.fadeInPending
    requires r.log == s.log + ShowCalls(s.ambient.Some?) + [FadeInStart]
    requires !r.autoplayPending && r.phase != Fresh
    ensures LogInv(r)
  {
    var h := s.ambient.Some?;
    ShowLogAt(s.log, h, SetShowVideo(true));
    ShowLogAt(s.log, h, AmbientPlay(InteractionRetry));
    ShowLogAt(s.log, h, AmbientPlay(OverlayCleanupResume));
    ShowLogAt(s.log, h, DisposeRenderer);
    ShowLogAt(s.log, h, FadeInStart);
    ShowLogAt(s.log, h, OverlayPlay);
  }

  /** The log part of the invariant survives the calls of a re-render that hid the overlay. */
  lemma HideKeepsLog(s: State, r: State)
    requires LogInv(s)
    requires r.refs == s.refs && r.scene == s.scene && r.overlay.fadeInPending == s.overlay.fadeInPending
    requires r.log == s.log + [SetOverflow(""), SetOverflow("")]
    requires !r.autoplayPending && r.phase != Fresh
    ensures LogInv(r)
  {
    var closing := [SetOverflow(""), SetOverflow("")];
    UntrackedAt(s.log, closing, SetShowVideo(true));
    UntrackedAt(s.log, closing, AmbientPlay(InteractionRetry));
    UntrackedAt(s.log, closing, AmbientPlay(OverlayCleanupResume));
    UntrackedAt(s.log, closing, DisposeRenderer);
    UntrackedAt(s.log, closing, FadeInStart);
    UntrackedAt(s.log, closing, OverlayPlay);
  }

  lemma RerenderKeepsLog(s: State, ok: bool)
    requires OverlayInv(s) && SceneInv(s) && LogInv(s)
    ensures LogInv(OnRerender(s, ok))
  {
    if s.phase == Live && s.view.showVideo && !s.overlay.committed {
      RerenderShows(s, ok);
      ShowKeepsLog(s, OnRerender(s, ok));
    } else if s.phase == Live && !s.view.showVideo && s.overlay.committed {
      RerenderHides(s, ok);
      HideKeepsLog(s, OnRerender(s, ok));
    }
  }

  /** Calls that register nothing keep the listener part of the invariant. */
  lemma AppendKeepsListeners(s: State, r: State, extra: seq<Effect>)
    requires ListenerInv(s) && forall e | e in extra :: !IsRegistration(e)
    requires r.phase == s.phase && r.scene.attached == s.scene.attached && r.log == s.log + extra
    ensures ListenerInv(r)
  {
    NoRegistrations(extra);
    RegistrationsAppend(s.log, extra);
    assert Registrations(s.log) + [] == Registrations(s.log);
  }

  /** A re-render leaves the registrations alone. */
  lemma RerenderKeepsListeners(s: State, ok: bool)
    requires OverlayInv(s) && ListenerInv(s)
    ensures ListenerInv(OnRerender(s, ok))
  {
    if s.phase == Live && s.view.showVideo && !s.overlay.committed {
      RerenderShows(s, ok);
      var extra := ShowCalls(s.ambient.Some?) + [FadeInStart];
      assert s.log + ShowCalls(s.ambient.Some?) + [FadeInStart] == s.log + extra;
      AppendKeepsListeners(s, OnRerender(s, ok), extra);
    } else if s.phase == Live && !s.view.showVideo && s.overlay.committed {
      RerenderHides(s, ok);
      AppendKeepsListeners(s, OnRerender(s, ok), [SetOverflow(""), SetOverflow("")]);
    }
  }

  lemma RerenderKeepsInv(s: State, ok: bool)
    requires Inv(s)
    ensures Inv(OnRerender(s, ok))
  {
    if s.phase == Live && s.view.showVideo && !s.overlay.committed {
      RerenderShows(s, ok);
    } else if s.phase == Live && !s.view.showVideo && s.overlay.committed {
      RerenderHides(s, ok);
    }
    RerenderKeepsLog(s, ok);
    RerenderKeepsListeners(s, ok);
  }

  lemma FadeInKeepsInv(s: State)
    requires Inv(s)
    ensures Inv(OnFadeInComplete(s))
  {
    var r := OnFadeInComplete(s);
    if r.log != s.log {
      TrackedAppend(s.log, OverlayPlay);
    }
  }

  lemma VideoEndedKeepsInv(s: State)
    requires Inv(s)
    ensures Inv(HandleVideoEnded(s))
  {
    var r := HandleVideoEnded(s);
    var extra := if s.phase == Gone then [] else if s.overlay.present then [SetShowProjects(true), FadeOutStart]
                 else [SetShowProjects(true)];
    assert r.log == s.log + extra;
    UntrackedAppend(s.log, extra);
  }

  lemma FadeOutKeepsInv(s: State)
    requires Inv(s)
    ensures Inv(OnFadeOutComplete(s))
  {
    var r := OnFadeOutComplete(s);
    if r.log != s.log {
      assert r.log == s.log + [SetShowVideo(false)];
      UntrackedAppend(s.log, [SetShowVideo(false)]);
    }
  }

  lemma FrameKeepsInv(s: State)
    requires Inv(s)
    ensures Inv(OnAnimationFrame(s))
  {
    if s.scene.framePending {
      UntrackedAppend(s.log, [RequestFrame, RenderFrame]);
    }
  }

  /** What unmounting a live component does to each part of the state. */
  lemma UnmountShape(s: State, ok: bool)
    requires OverlayInv(s) && SceneInv(s) && s.phase == Live
    ensures var r := OnUnmount(s, ok); var held := s.scene.attached;
      r.phase == Gone && r.refs == s.refs && r.view == s.view &&
      r.overlay == s.overlay.(armed := false, present := false) && r.overflow == "" &&
      r.scene == (if held then Scene(true, false, false, true, {}) else s.scene) &&
      r.ambient == (if held then Some(Video(true, "")) else s.ambient) &&
      r.autoplayPending == (s.autoplayPending && !held) &&
      r.log == s.log + [SetOverflow("")] + (if held then CleanupCalls(s.ambient.Some?) else [])
  {
    var s1 := OverflowCleanup(s);
    var s2 := MountCleanup(s1);
    var s3 := OverlayCleanup(s2, ok);
    assert s3.log == s2.log && s3.ambient == s2.ambient;
    assert s3 == s2.(overlay := s2.overlay.(armed := false));
  }

  /** The calls of unmounting add one disposal and change the count of no other tracked call. */
  lemma UnmountLogAt(log: seq<Effect>, held: bool, hasAmbient: bool, x: Effect)
    requires Tracked(x) && !IsRegistration(x)
    ensures Count(log + [SetOverflow("")] + (if held then CleanupCalls(hasAmbient) else []), x) ==
            Count(log, x) + (if held && x == DisposeRenderer then 1 else 0)
  {
    var l1 := log + [SetOverflow("")];
    UntrackedAt(log, [SetOverflow("")], x);
    if held {
      CountAppend(l1, CleanupCalls(hasAmbient), x);
      CleanupCallsCount(hasAmbient, x);
    } else {
      assert l1 + [] == l1;
    }
  }

  /** The calls of unmounting append the five removals to the registrations. */
  lemma UnmountRegistrations(log: seq<Effect>, held: bool, hasAmbient: bool)
    ensures Registrations(log + [SetOverflow("")] + (if held then CleanupCalls(hasAmbient) else [])) ==
            Registrations(log) + (if held then RemoveCalls else [])
  {
    var l1 := log + [SetOverflow("")];
    UntrackedAppend(log, [SetOverflow("")]);
    if held {
      RegistrationsAppend(l1, CleanupCalls(hasAmbient));
      CleanupCallsRegister(hasAmbient);
    } else {
      assert l1 + [] == l1;
      assert Registrations(log) + [] == Registrations(log);
    }
  }

  /** The calls of unmounting, counted for every tracked call other than a registration. */
  lemma UnmountCounts(log: seq<Effect>, held: bool, hasAmbient: bool)
    ensures var l := log + [SetOverflow("")] + (if held then CleanupCalls(hasAmbient) else []);
      Count(l, SetShowVideo(true)) == Count(log, SetShowVideo(true)) &&
      Count(l, AmbientPlay(InteractionRetry)) == Count(log, AmbientPlay(InteractionRetry)) &&
      Count(l, AmbientPlay(OverlayCleanupResume)) == Count(log, AmbientPlay(OverlayCleanupResume)) &&
      Count(l, DisposeRenderer) == Count(log, DisposeRenderer) + (if held then 1 else 0) &&
      Count(l, FadeInStart) == Count(log, FadeInStart) &&
      Count(l, OverlayPlay) == Count(log, OverlayPlay)
  {
    UnmountLogAt(log, held, hasAmbient, SetShowVideo(true));
    UnmountLogAt(log, held, hasAmbient, AmbientPlay(InteractionRetry));
    UnmountLogAt(log, held, hasAmbient, AmbientPlay(OverlayCleanupResume));
    UnmountLogAt(log, held, hasAmbient, DisposeRenderer);
    UnmountLogAt(log, held, hasAmbient, FadeInStart);
    UnmountLogAt(log, held, hasAmbient, OverlayPlay);
  }

  /** The log part of the invariant survives the calls of unmounting a live component. */
  lemma TeardownKeepsLog(s: State, r: State)
    requires LogInv(s) && !s.scene.rendererDisposed
    requires r.refs == s.refs && r.overlay.fadeInPending == s.overlay.fadeInPending
    requires r.scene.rendererDisposed == s.scene.attached
    requires r.log == s.log + [SetOverflow("")] + (if s.scene.attached then CleanupCalls(s.ambient.Some?) else [])
    requires r.phase != Fresh && (r.autoplayPending ==> s.autoplayPending)
    ensures LogInv(r)
  {
    UnmountCounts(s.log, s.scene.attached, s.ambient.Some?);
  }

  lemma UnmountKeepsLog(s: State, ok: bool)
    requires OverlayInv(s) && SceneInv(s) && LogInv(s)
    ensures LogInv(OnUnmount(s, ok))
  {
    if s.phase == Live {
      UnmountShape(s, ok);
      TeardownKeepsLog(s, OnUnmount(s, ok));
    }
  }

  /** Unmounting a live component appends the five removals to the registrations, if the mount effect ran. */
  lemma TeardownKeepsListeners(s: State, r: State)
    requires ListenerInv(s) && s.phase == Live && r.phase == Gone && r.scene.attached == s.scene.attached
    requires r.log == s.log + [SetOverflow("")] + (if s.scene.attached then CleanupCalls(s.ambient.Some?) else [])
    ensures ListenerInv(r)
  {
    UnmountRegistrations(s.log, s.scene.attached, s.ambient.Some?);
  }

  lemma UnmountKeepsListeners(s: State, ok: bool)
    requires OverlayInv(s) && SceneInv(s) && ListenerInv(s)
    ensures ListenerInv(OnUnmount(s, ok))
  {
    if s.phase == Live {
      UnmountShape(s, ok);
      TeardownKeepsListeners(s, OnUnmount(s, ok));
    }
  }

  lemma UnmountKeepsInv(s: State, ok: bool)
    requires Inv(s)
    ensures Inv(OnUnmount(s, ok))
  {
    if s.phase == Live {
      UnmountShape(s, ok);
    }
    UnmountKeepsLog(s, ok);
    UnmountKeepsListeners(s, ok);
  }

  /** Every event preserves the invariant. */
  lemma StepKeepsInv(s: State, e: Event)
    requires Inv(s)
    ensures Inv(Step(s, e))
  {
    match e
    case Mounted(c, p, ok) => MountKeepsInv(s, c, p, ok);
    case AutoplaySettled(resolved) => AutoplayKeepsInv(s, resolved);
    case AmbientEnded => AmbientEndedKeepsInv(s);
    case UserGesture(g, ok) => GestureKeepsInv(s, g, ok);
    case TriggerEnter(ok) => EnterKeepsInv(s, ok);
    case TriggerLeaveBack => LeaveBackKeepsInv(s);
    case TriggerUpdate(p) => UpdateKeepsInv(s, p);
    case Rerendered(ok) => RerenderKeepsInv(s, ok);
    case FadeInCompleted => FadeInKeepsInv(s);
    case OverlayEnded => VideoEndedKeepsInv(s);
    case FadeOutCompleted => FadeOutKeepsInv(s);
    case AnimationFrame => FrameKeepsInv(s);
    case Unmounted(ok) => UnmountKeepsInv(s, ok);
  }

  /** Every sequence of events preserves the invariant. */
  lemma {:induction false} RunKeepsInv(s: State, es: seq<Event>)
    requires Inv(s)
    ensures Inv(Run(s, es))
    decreases |es|
  {
    if es != [] {
      StepKeepsInv(s, es[0]);
      RunKeepsInv(Step(s, es[0]), es[1..]);
    }
  }
}
