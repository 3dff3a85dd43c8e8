/**
 * What the coordinator guarantees over every sequence of events delivered
 * to a freshly rendered component, and over single callbacks.
 */
module CoordinatorProperties {
  import opened CoordinatorModel
  import opened CoordinatorInvariant

  /* ---------------- Reachable states ---------------- */

  /** Every state reached from a fresh component satisfies the invariant. */
  lemma ReachableInv(es: seq<Event>)
    ensures Inv(Run(Init, es))
  {
    InitInv();
    RunKeepsInv(Init, es);
  }

  lemma {:induction false} CountPresent(log: seq<Effect>, x: Effect)
    requires x in log
    ensures Count(log, x) > 0
  {
    if log[0] != x {
      assert x in log[1..];
      CountPresent(log[1..], x);
    }
  }

  /* ---------------- The fullscreen latch ---------------- */

  /**
   * showVideo is set to true at most once per mount, and exactly when the
   * fullscreen latch is set: however often the progress crosses 0.999.
   */
  lemma FullscreenShownAtMostOnce(es: seq<Event>)
    ensures var r := Run(Init, es);
      Count(r.log, SetShowVideo(true)) <= 1 &&
      (Count(r.log, SetShowVideo(true)) == 1 <==> r.refs.fullscreenTriggered)
  {
    ReachableInv(es);
  }

  /* ---------------- The retry latch ---------------- */

  /** The interaction retry plays the ambient video at most once per mount, and only once the latch is set. */
  lemma RetryPlaysAtMostOnce(es: seq<Event>)
    ensures var r := Run(Init, es);
      Count(r.log, AmbientPlay(InteractionRetry)) <= 1 &&
      (Count(r.log, AmbientPlay(InteractionRetry)) == 1 ==> r.refs.playbackRequested)
  {
    ReachableInv(es);
  }

  /* ---------------- The overlay ---------------- */

  /** The overlay effect's cleanup never plays the ambient video: the latch is set by then. */
  lemma OverlayCleanupNeverResumes(es: seq<Event>)
    ensures AmbientPlay(OverlayCleanupResume) !in Run(Init, es).log
  {
    ReachableInv(es);
    var log := Run(Init, es).log;
    if AmbientPlay(OverlayCleanupResume) in log {
      CountPresent(log, AmbientPlay(OverlayCleanupResume));
    }
  }

  /**
   * Every play() of the overlay video follows a fade-in of its own: after
   * any sequence of events, no more overlay plays than fade-ins were issued.
   */
  lemma OverlayPlaysOnlyAfterFadeIn(es: seq<Event>)
    ensures Count(Run(Init, es).log, OverlayPlay) <= Count(Run(Init, es).log, FadeInStart)
  {
    ReachableInv(es);
  }

  /** Body overflow is "hidden" exactly while the committed showVideo is true and the component is mounted. */
  lemma OverflowHiddenExactlyWhileShown(es: seq<Event>)
    ensures var r := Run(Init, es);
      (r.overflow == "hidden" <==> r.phase == Live && r.overlay.committed) &&
      (r.overflow != "hidden" ==> r.overflow == "")
  {
    ReachableInv(es);
  }

  /* ---------------- Mount and unmount ---------------- */

  /**
   * The listener registrations in the log: the mount effect's five while
   * mounted, followed after unmount by the removal of each of them; the
   * registered set is empty once the component is gone.
   */
  lemma ListenersBalanced(es: seq<Event>)
    ensures var r := Run(Init, es);
      (r.phase == Live ==> Registrations(r.log) == (if r.scene.attached then AddCalls else []) &&
                           r.scene.listeners == (if r.scene.attached then AllListeners else {})) &&
      (r.phase == Gone ==> Registrations(r.log) == (if r.scene.attached then AddCalls + RemoveCalls else []) &&
                           r.scene.listeners == {})
  {
    ReachableInv(es);
    var none: seq<Effect> := [];
    assert none + none == none;
    assert AddCalls + [] == AddCalls;
  }

  /** Every listener there is gets registered by the mount effect and removed by its cleanup. */
  lemma RemovalsMatchRegistrations()
    ensures forall l: Listener :: l in AllListeners && AddListener(l) in AddCalls && RemoveListener(l) in RemoveCalls
  {
    forall l: Listener
      ensures l in AllListeners && AddListener(l) in AddCalls && RemoveListener(l) in RemoveCalls
    {
      match l {
        case OnDocument(g) =>
          match g {
            case Click => assert AddCalls[0] == AddListener(l) && RemoveCalls[2] == RemoveListener(l);
            case TouchStart => assert AddCalls[1] == AddListener(l) && RemoveCalls[3] == RemoveListener(l);
            case KeyDown => assert AddCalls[2] == AddListener(l) && RemoveCalls[4] == RemoveListener(l);
          }
        case WindowMouseMove => assert AddCalls[3] == AddListener(l) && RemoveCalls[0] == RemoveListener(l);
        case WindowResize => assert AddCalls[4] == AddListener(l) && RemoveCalls[1] == RemoveListener(l);
      }
    }
  }

  /** The renderer is disposed exactly once, by unmounting a component whose mount effect ran. */
  lemma DisposedOnceOnUnmount(es: seq<Event>)
    ensures var r := Run(Init, es);
      Count(r.log, DisposeRenderer) == (if r.phase == Gone && r.scene.attached then 1 else 0)
  {
    ReachableInv(es);
  }

  /**
   * After unmount the ambient video is paused with an empty source, and no
   * autoplay promise is left to settle.
   */
  lemma AmbientReleasedOnUnmount(es: seq<Event>)
    ensures var r := Run(Init, es);
      r.phase == Gone && r.scene.attached ==> r.ambient == Some(Video(true, "")) && !r.autoplayPending
  {
    ReachableInv(es);
  }

  /** The mount cleanup cancels the animation frame before it disposes the renderer. */
  lemma CancelBeforeDispose(hasAmbient: bool)
    ensures var calls := CleanupCalls(hasAmbient);
      exists i, j :: 0 <= i < j < |calls| && calls[i] == CancelFrame && calls[j] == DisposeRenderer &&
                     CancelFrame !in calls[j..] && DisposeRenderer !in calls[..j]
  {
    var calls := CleanupCalls(hasAmbient);
    var k := |RemoveCalls| + (if hasAmbient then 3 else 0);
    assert calls[k] == CancelFrame && calls[k + 1] == DisposeRenderer;
    assert calls[k + 1..] == [DisposeRenderer, KillTriggers];
    assert calls[..k + 1] == RemoveCalls + (if hasAmbient then ReleaseAmbientCalls else []) + [CancelFrame];
  }

  /**
   * Once the component is gone, no event revives it and no call it makes
   * takes effect: a state setter React drops is not logged.
   */
  lemma GoneStepQuiet(s: State, e: Event)
    requires Inv(s) && s.phase == Gone
    ensures Step(s, e).log == s.log && Step(s, e).phase == Gone
  {
    assert !s.overlay.present && !s.scene.triggerAlive && !s.scene.framePending && s.scene.listeners == {};
  }

  /**
   * Teardown is final: after unmount, whatever queued callbacks still fire
   * (autoplay settlement, tween completions, gestures, frames, a second
   * unmount), no further call takes effect.
   */
  lemma {:induction false} TeardownIsFinal(s: State, es: seq<Event>)
    requires Inv(s) && s.phase == Gone
    ensures Run(s, es).log == s.log && Run(s, es).phase == Gone
    decreases |es|
  {
    if es != [] {
      GoneStepQuiet(s, es[0]);
      StepKeepsInv(s, es[0]);
      TeardownIsFinal(Step(s, es[0]), es[1..]);
    }
  }

  /* ---------------- Latches and flags that only go one way ---------------- */

  /** No callback clears either latch or hides the projects again. */
  lemma StepKeepsLatches(s: State, e: Event)
    ensures s.refs.fullscreenTriggered ==> Step(s, e).refs.fullscreenTriggered
    ensures s.refs.playbackRequested ==> Step(s, e).refs.playbackRequested
    ensures s.view.showProjects ==> Step(s, e).view.showProjects
  {
  }

  /** Both latches and showProjects stay set for the rest of the mount once set. */
  lemma {:induction false} LatchesNeverCleared(s: State, es: seq<Event>)
    ensures s.refs.fullscreenTriggered ==> Run(s, es).refs.fullscreenTriggered
    ensures s.refs.playbackRequested ==> Run(s, es).refs.playbackRequested
    ensures s.view.showProjects ==> Run(s, es).view.showProjects
    decreases |es|
  {
    if es != [] {
      StepKeepsLatches(s, es[0]);
      LatchesNeverCleared(Step(s, es[0]), es[1..]);
    }
  }

  /**
   * showVideo goes back to false only in the fade-out's onComplete, and by
   * then the projects are already revealed.
   */
  lemma ShowVideoClearedOnlyByFadeOut(s: State, e: Event)
    requires Inv(s)
    ensures s.view.showVideo && !Step(s, e).view.showVideo ==>
              e == FadeOutCompleted && s.overlay.fadeOutPending && s.view.showProjects
  {
  }

  /* ---------------- The ambient video under the overlay ---------------- */

  /**
   * A pending autoplay promise belongs to a video that plays, and never
   * outlives the overlay effect's pause: while one is pending the overlay
   * has never been shown (no fade-in was ever started), so its resolution
   * (which only latches the request) cannot coincide with the overlay.
   */
  lemma AutoplayPendingOnlyBeforeOverlay(es: seq<Event>)
    ensures var r := Run(Init, es);
      r.autoplayPending ==> r.phase == Live && !r.overlay.committed && !r.overlay.present &&
                            r.ambient.Some? && !r.ambient.value.paused &&
                            Count(r.log, FadeInStart) == 0
  {
    ReachableInv(es);
  }

  /**
   * onEnter restarts a clip that played to its end: after autoplay, the
   * clip ending, and a scroll back to the top and forward again, the last
   * call is onEnter's `play()` and the ambient video plays once more.
   */
  lemma EnterReplaysEndedClip()
    ensures var r := Run(Init, [Mounted(true, true, true), AutoplaySettled(true), AmbientEnded,
                                TriggerLeaveBack, TriggerEnter(true)]);
      |r.log| > 0 && r.log[|r.log| - 1] == AmbientPlay(ScrollEnterResume) &&
      r.ambient == Some(Video(false, AmbientSource)) && !r.overlay.present
  {
    var es := [Mounted(true, true, true), AutoplaySettled(true), AmbientEnded, TriggerLeaveBack, TriggerEnter(true)];
    var s1 := Step(Init, es[0]);
    assert s1.phase == Live && s1.scene.triggerAlive && s1.autoplayPending && !s1.overlay.committed;
    assert s1.ambient == Some(Video(false, AmbientSource));
    var s2 := Step(s1, es[1]);
    assert s2.phase == Live && !s2.autoplayPending && s2.ambient == Some(Video(false, AmbientSource));
    var s3 := Step(s2, es[2]);
    assert s3.ambient == Some(Video(true, AmbientSource)) && s3.scene.triggerAlive;
    var s4 := Step(s3, es[3]);
    assert s4 == s3.(refs := s3.refs.(isScrolling := false));
    var s5 := Step(s4, es[4]);
    assert s5.log == s4.log + [AmbientPlay(ScrollEnterResume)];
    assert s5.ambient == Some(Video(false, AmbientSource)) && !s5.overlay.present;
    assert es[1..][1..][1..][1..][1..] == [];
    assert Run(Init, es) == s5;
  }

  /**
   * Nothing keeps the ambient video paused while the overlay is shown:
   * onEnter consults no latch, so scrolling back to the top and forward
   * again after the overlay effect paused the ambient video plays it again
   * under the overlay. This needs the viewport to scroll although the
   * body's overflow is hidden; RetryMayPlayUnderOverlay is the path a user
   * readily takes.
   */
  lemma AmbientMayPlayUnderOverlay()
    ensures var r := Run(Init, [Mounted(true, true, true), TriggerUpdate(1.0), Rerendered(true),
                                TriggerLeaveBack, TriggerEnter(true)]);
      r.overlay.present && r.ambient == Some(Video(false, AmbientSource))
  {
    var es := [Mounted(true, true, true), TriggerUpdate(1.0), Rerendered(true), TriggerLeaveBack, TriggerEnter(true)];
    var s1 := Step(Init, es[0]);
    assert s1.phase == Live && s1.scene.triggerAlive && !s1.refs.fullscreenTriggered && !s1.view.showVideo;
    assert s1.ambient == Some(Video(false, AmbientSource)) && !s1.overlay.committed;
    var s2 := Step(s1, es[1]);
    assert s2.view.showVideo && s2.phase == Live && s2.scene.triggerAlive && !s2.overlay.committed;
    var s3 := Step(s2, es[2]);
    assert s3.overlay.present && s3.scene.triggerAlive && s3.ambient == Some(Video(true, AmbientSource));
    var s4 := Step(s3, es[3]);
    assert s4 == s3.(refs := s3.refs.(isScrolling := false));
    var s5 := Step(s4, es[4]);
    assert s5.overlay.present && s5.ambient == Some(Video(false, AmbientSource));
    assert es[1..][1..][1..][1..][1..] == [];
    assert Run(Init, es) == s5;
  }

  /**
   * The interaction retry plays the ambient video under the overlay too:
   * with autoplay refused, a click on the overlay is the first gesture, and
   * the retry consults no latch but its own.
   */
  lemma RetryMayPlayUnderOverlay()
    ensures var r := Run(Init, [Mounted(true, true, false), TriggerUpdate(1.0), Rerendered(true),
                                UserGesture(Click, true)]);
      r.overlay.present && r.ambient == Some(Video(false, AmbientSource)) &&
      r.refs.playbackRequested && r.refs.fullscreenTriggered
  {
    var es := [Mounted(true, true, false), TriggerUpdate(1.0), Rerendered(true), UserGesture(Click, true)];
    var s1 := Step(Init, es[0]);
    assert s1.phase == Live && s1.scene.triggerAlive && !s1.refs.fullscreenTriggered && !s1.view.showVideo;
    assert s1.ambient == Some(Video(true, AmbientSource)) && !s1.overlay.committed && !s1.refs.playbackRequested;
    assert OnDocument(Click) in s1.scene.listeners;
    var s2 := Step(s1, es[1]);
    assert s2.view.showVideo && s2.phase == Live && !s2.overlay.committed && s2.scene == s1.scene;
    var s3 := Step(s2, es[2]);
    assert s3.overlay.present && s3.scene == s1.scene && s3.ambient == Some(Video(true, AmbientSource));
    var s4 := Step(s3, es[3]);
    assert s4.overlay.present && s4.ambient == Some(Video(false, AmbientSource));
    assert es[1..][1..][1..][1..] == [];
    assert Run(Init, es) == s4;
  }
}
