/**
 * The InteractiveOldPC component (components/CanvasScroll.tsx) as an object
 * whose fields the callbacks update in place: its lifecycle phase, its ref
 * cells, its React state, the overlay effect's bookkeeping, the ambient
 * video, the resources the mount effect holds, the body's overflow style
 * and the calls issued so far. There is one method per callback and one per
 * effect body or cleanup; each changes the fields step by step in the order
 * of the component's code and is proved to leave the object in exactly the
 * state the corresponding transition function of CoordinatorModel yields.
 *
 * The event methods (Mount, AutoplaySettled, AmbientEnded, Gesture, Enter,
 * LeaveBack, Update, Rerender, FadeInComplete, HandleVideoEnded,
 * FadeOutComplete, AnimationFrame, Unmount) also record their event in the
 * ghost history and keep Replays(): the object is the model's Run of that
 * history from Init. So every property proved about Run holds of an object
 * driven only by its event methods. The other methods are the steps those
 * events are made of; they leave the history alone, so calling one on its
 * own is not an event and gives up Replays().
 */
module CanvasScroll {
  import opened CoordinatorModel
  import CoordinatorProperties

  class InteractiveOldPC {
    var phase: Phase
    var refs: Refs                      // isScrollingRef, videoPlaybackRequestedRef, fullscreenVideoTriggeredRef
    var view: View                      // showVideo, showProjects
    var overlay: Overlay                // the [showVideo] effects' bookkeeping, the overlay's refs and tweens
    var ambient: Option<Video>          // videoRef.current
    var autoplayPending: bool           // the autoplay play() promise has not settled
    var scene: Scene                    // what the mount effect holds
    var overflow: string                // document.body.style.overflow
    var calls: seq<Effect>              // the calls issued so far, in order
    ghost var history: seq<Event>       // the events delivered so far, in order

    /** The object's fields as a state of the transition model. */
    function Snapshot(): (s: State)
      reads this
    {
      State(phase, refs, view, overlay, ambient, autoplayPending, scene, overflow, calls)
    }

    /** The object is where the events of its history take a freshly rendered component. */
    ghost predicate Replays()
      reads this
    {
      Snapshot() == Run(Init, history)
    }

    /** A freshly rendered component: every ref and piece of state at its initial value, no effect run yet. */
    constructor()
      ensures Snapshot() == Init && history == [] && Replays()
    {
      phase := Fresh;
      refs := Refs(false, false, false);
      view := View(false, false);
      overlay := Overlay(false, false, false, false, false);
      ambient := None;
      autoplayPending := false;
      scene := Scene(false, false, false, false, {});
      overflow := "";
      calls := [];
      history := [];
    }

    /* ---------------- Primitive calls ---------------- */

    /** `videoRef.current.play()`; the browser decides whether playback starts. */
    method PlayAmbient(site: PlaySite, ok: bool)
      requires ambient.Some?
      modifies this
      ensures Snapshot() == CoordinatorModel.PlayAmbient(old(Snapshot()), site, ok)
      ensures history == old(history)
    {
      if ok {
        ambient := Some(ambient.value.(paused := false));
      }
      calls := calls + [AmbientPlay(site)];
    }

    /** React's `setShowVideo`, ignored after unmount. */
    method SetShowVideo(v: bool)
      modifies this
      ensures Snapshot() == WithShowVideo(old(Snapshot()), v)
      ensures history == old(history)
    {
      if phase == Gone {
        return;
      }
      view := view.(showVideo := v);
      calls := calls + [Effect.SetShowVideo(v)];
    }

    /** React's `setShowProjects`, ignored after unmount. */
    method SetShowProjects(v: bool)
      modifies this
      ensures Snapshot() == WithShowProjects(old(Snapshot()), v)
      ensures history == old(history)
    {
      if phase == Gone {
        return;
      }
      view := view.(showProjects := v);
      calls := calls + [Effect.SetShowProjects(v)];
    }

    /* ---------------- Ambient video ---------------- */

    /** The promise of the autoplay `play()` in initializeVideoPlayback settles. */
    method AutoplaySettled(resolved: bool)
      requires Replays()
      modifies this
      ensures Snapshot() == OnAutoplaySettled(old(Snapshot()), resolved)
      ensures history == old(history) + [Event.AutoplaySettled(resolved)] && Replays()
    {
      ghost var h := history;
      if autoplayPending {
        // a rejection is only logged
        autoplayPending := false;
        if resolved {
          refs := refs.(playbackRequested := true);
        }
      }
      RunSnoc(Init, h, Event.AutoplaySettled(resolved));
      history := h + [Event.AutoplaySettled(resolved)];
    }

    /** The ambient clip plays to its end and the browser pauses it; no handler runs. */
    method AmbientEnded()
      requires Replays()
      modifies this
      ensures Snapshot() == OnAmbientEnded(old(Snapshot()))
      ensures history == old(history) + [Event.AmbientEnded] && Replays()
    {
      ghost var h := history;
      if phase == Live && ambient.Some? && !ambient.value.paused && !autoplayPending {
        ambient := Some(ambient.value.(paused := true));
      }
      RunSnoc(Init, h, Event.AmbientEnded);
      history := h + [Event.AmbientEnded];
    }

    method ResumeVideoOnInteraction(ok: bool)
      modifies this
      ensures Snapshot() == CoordinatorModel.ResumeVideoOnInteraction(old(Snapshot()), ok)
      ensures history == old(history)
    {
      if ambient.Some? && !refs.playbackRequested {
        PlayAmbient(InteractionRetry, ok);
        refs := refs.(playbackRequested := true);
      }
    }

    /** A click, touchstart or keydown on the document. */
    method Gesture(g: Gesture, ok: bool)
      requires Replays()
      modifies this
      ensures Snapshot() == OnGesture(old(Snapshot()), g, ok)
      ensures history == old(history) + [UserGesture(g, ok)] && Replays()
    {
      ghost var h := history;
      if OnDocument(g) in scene.listeners {
        ResumeVideoOnInteraction(ok);
      }
      RunSnoc(Init, h, UserGesture(g, ok));
      history := h + [UserGesture(g, ok)];
    }

    /* ---------------- ScrollTrigger callbacks ---------------- */

    method Enter(ok: bool)
      requires Replays()
      modifies this
      ensures Snapshot() == OnEnter(old(Snapshot()), ok)
      ensures history == old(history) + [TriggerEnter(ok)] && Replays()
    {
      ghost var h := history;
      if scene.triggerAlive {
        refs := refs.(isScrolling := true);
        if ambient.Some? && ambient.value.paused {
          PlayAmbient(ScrollEnterResume, ok);
        }
      }
      RunSnoc(Init, h, TriggerEnter(ok));
      history := h + [TriggerEnter(ok)];
    }

    method LeaveBack()
      requires Replays()
      modifies this
      ensures Snapshot() == OnLeaveBack(old(Snapshot()))
      ensures history == old(history) + [TriggerLeaveBack] && Replays()
    {
      ghost var h := history;
      if scene.triggerAlive {
        refs := refs.(isScrolling := false);
      }
      RunSnoc(Init, h, TriggerLeaveBack);
      history := h + [TriggerLeaveBack];
    }

    method HandleFullscreenVideo()
      modifies this
      ensures Snapshot() == CoordinatorModel.HandleFullscreenVideo(old(Snapshot()))
      ensures history == old(history)
    {
      if refs.fullscreenTriggered {
        return;
      }
      refs := refs.(fullscreenTriggered := true);
      SetShowVideo(true);
    }

    /** onUpdate; however often the progress crosses 0.999, `setShowVideo(true)` has been called at most once. */
    method Update(progress: real)
      requires Replays()
      modifies this
      ensures Snapshot() == OnUpdate(old(Snapshot()), progress)
      ensures history == old(history) + [TriggerUpdate(progress)] && Replays()
      ensures Count(calls, Effect.SetShowVideo(true)) <= 1
    {
      ghost var h := history;
      if scene.triggerAlive && progress >= Threshold && !refs.fullscreenTriggered {
        HandleFullscreenVideo();
      }
      RunSnoc(Init, h, TriggerUpdate(progress));
      history := h + [TriggerUpdate(progress)];
      CoordinatorProperties.FullscreenShownAtMostOnce(history);
    }

    /* ---------------- Overlay ---------------- */

    /** The overlay effect's body. */
    method OverlayEffect()
      modifies this
      ensures Snapshot() == CoordinatorModel.OverlayEffect(old(Snapshot()))
      ensures history == old(history)
    {
      if !overlay.committed || !overlay.present {
        overlay := overlay.(armed := false);
        return;
      }
      if ambient.Some? {
        // pausing rejects a pending autoplay promise
        ambient := Some(ambient.value.(paused := true));
        autoplayPending := false;
        calls := calls + [AmbientPause];
      }
      overlay := overlay.(fadeInPending := true, armed := true);
      calls := calls + [FadeInStart];
    }

    /** The overlay effect's cleanup. */
    method OverlayCleanup(ok: bool)
      modifies this
      ensures Snapshot() == CoordinatorModel.OverlayCleanup(old(Snapshot()), ok)
      ensures history == old(history)
    {
      if !overlay.armed {
        return;
      }
      overlay := overlay.(armed := false);
      if ambient.Some? && !refs.fullscreenTriggered {
        PlayAmbient(OverlayCleanupResume, ok);
      }
    }

    /** The fade-in tween's onComplete. */
    method FadeInComplete()
      requires Replays()
      modifies this
      ensures Snapshot() == OnFadeInComplete(old(Snapshot()))
      ensures history == old(history) + [FadeInCompleted] && Replays()
    {
      ghost var h := history;
      if overlay.fadeInPending {
        overlay := overlay.(fadeInPending := false);
        if overlay.present {
          calls := calls + [OverlayPlay];
        }
      }
      RunSnoc(Init, h, FadeInCompleted);
      history := h + [FadeInCompleted];
    }

    /** The overlay video's onEnded handler. */
    method HandleVideoEnded()
      requires Replays()
      modifies this
      ensures Snapshot() == CoordinatorModel.HandleVideoEnded(old(Snapshot()))
      ensures history == old(history) + [OverlayEnded] && Replays()
    {
      ghost var h := history;
      SetShowProjects(true);
      if overlay.present {
        overlay := overlay.(fadeOutPending := true);
        calls := calls + [FadeOutStart];
      }
      RunSnoc(Init, h, OverlayEnded);
      history := h + [OverlayEnded];
    }

    /** The fade-out tween's onComplete. */
    method FadeOutComplete()
      requires Replays()
      modifies this
      ensures Snapshot() == OnFadeOutComplete(old(Snapshot()))
      ensures history == old(history) + [FadeOutCompleted] && Replays()
    {
      ghost var h := history;
      if overlay.fadeOutPending {
        overlay := overlay.(fadeOutPending := false);
        SetShowVideo(false);
      }
      RunSnoc(Init, h, FadeOutCompleted);
      history := h + [FadeOutCompleted];
    }

    /* ---------------- Body overflow ---------------- */

    /** The overflow effect's body. */
    method OverflowEffect()
      modifies this
      ensures Snapshot() == CoordinatorModel.OverflowEffect(old(Snapshot()))
      ensures history == old(history)
    {
      overflow := if overlay.committed then "hidden" else "";
      calls := calls + [SetOverflow(overflow)];
    }

    /** The overflow effect's cleanup. */
    method OverflowCleanup()
      modifies this
      ensures Snapshot() == CoordinatorModel.OverflowCleanup(old(Snapshot()))
      ensures history == old(history)
    {
      overflow := "";
      calls := calls + [SetOverflow("")];
    }

    /* ---------------- Mount and unmount ---------------- */

    /** The mount effect's body, from the container check to the first frame of the render loop. */
    method MountEffect(sceneContainer: bool, playReturnsPromise: bool, autoplayOk: bool)
      modifies this
      ensures Snapshot() == CoordinatorModel.MountEffect(old(Snapshot()), sceneContainer, playReturnsPromise, autoplayOk)
      ensures history == old(history)
    {
      if !sceneContainer {
        return;
      }
      // the three document listeners of resumeVideoOnInteraction
      var registered := scene.listeners + {OnDocument(Click), OnDocument(TouchStart), OnDocument(KeyDown)};
      var issued := calls + AddCalls[..3];
      // videoRef.current = createVideoElement(): paused, with its source
      ambient := Some(Video(true, AmbientSource));
      // the timeline's ScrollTrigger, then the mousemove and resize listeners
      registered := registered + {WindowMouseMove, WindowResize};
      issued := issued + AddCalls[3..];
      // initializeVideoPlayback(video): the browser decides whether play() starts playback, and
      // play() returns a promise only in some browsers; a refused play() rejects it at once
      if autoplayOk {
        ambient := Some(ambient.value.(paused := false));
      }
      autoplayPending := playReturnsPromise && autoplayOk;
      issued := issued + [AmbientPlay(InitialAutoplay)];
      // animate(): request the next frame, then draw
      issued := issued + [RequestFrame, RenderFrame];
      scene := Scene(true, true, true, scene.rendererDisposed, registered);
      assert issued == calls + MountCalls;
      calls := issued;
    }

    /** The mount effect's cleanup. */
    method MountCleanup()
      modifies this
      ensures Snapshot() == CoordinatorModel.MountCleanup(old(Snapshot()))
      ensures history == old(history)
    {
      if !scene.attached {
        return;
      }
      // the window listeners, then the document listeners
      var registered := scene.listeners - {WindowMouseMove, WindowResize};
      registered := registered - {OnDocument(Click), OnDocument(TouchStart), OnDocument(KeyDown)};
      var issued := calls + RemoveCalls;
      if ambient.Some? {
        // pause(), src = "", load(); load() aborts a pending play() promise
        ambient := Some(Video(true, ""));
        issued := issued + ReleaseAmbientCalls;
      }
      autoplayPending := false;
      // cancelAnimationFrame, renderer.dispose(), kill the scroll triggers
      issued := issued + ReleaseSceneCalls;
      scene := Scene(true, false, false, true, registered);
      assert issued == calls + CleanupCalls(ambient.Some?);
      calls := issued;
    }

    /** React commits a render: the overlay's elements exist exactly while showVideo is true. */
    method CommitRender()
      modifies this
      ensures Snapshot() == CoordinatorModel.CommitRender(old(Snapshot()))
      ensures history == old(history)
    {
      overlay := overlay.(committed := view.showVideo, present := view.showVideo);
    }

    /** The first commit: the effects run in declaration order. */
    method Mount(sceneContainer: bool, playReturnsPromise: bool, autoplayOk: bool)
      requires Replays()
      modifies this
      ensures Snapshot() == OnMount(old(Snapshot()), sceneContainer, playReturnsPromise, autoplayOk)
      ensures history == old(history) + [Mounted(sceneContainer, playReturnsPromise, autoplayOk)] && Replays()
    {
      ghost var h := history;
      if phase == Fresh {
        phase := Live;
        CommitRender();
        OverflowEffect();
        MountEffect(sceneContainer, playReturnsPromise, autoplayOk);
        OverlayEffect();
      }
      RunSnoc(Init, h, Mounted(sceneContainer, playReturnsPromise, autoplayOk));
      history := h + [Mounted(sceneContainer, playReturnsPromise, autoplayOk)];
    }

    /** A re-render: when showVideo changed, the [showVideo] effects clean up and run again. */
    method Rerender(ok: bool)
      requires Replays()
      modifies this
      ensures Snapshot() == OnRerender(old(Snapshot()), ok)
      ensures history == old(history) + [Rerendered(ok)] && Replays()
    {
      ghost var h := history;
      if phase == Live && view.showVideo != overlay.committed {
        CommitRender();
        OverflowCleanup();
        OverlayCleanup(ok);
        OverflowEffect();
        OverlayEffect();
      }
      RunSnoc(Init, h, Rerendered(ok));
      history := h + [Rerendered(ok)];
    }

    /** One animation frame of the render loop. */
    method AnimationFrame()
      requires Replays()
      modifies this
      ensures Snapshot() == OnAnimationFrame(old(Snapshot()))
      ensures history == old(history) + [Event.AnimationFrame] && Replays()
    {
      ghost var h := history;
      if scene.framePending {
        calls := calls + [RequestFrame, RenderFrame];
      }
      RunSnoc(Init, h, Event.AnimationFrame);
      history := h + [Event.AnimationFrame];
    }

    /** React unmounts a live component: the effects' cleanups in declaration order, then the overlay refs are detached. */
    method Teardown(ok: bool)
      requires phase == Live
      modifies this
      ensures Snapshot() == OnUnmount(old(Snapshot()), ok)
      ensures history == old(history)
    {
      OverflowCleanup();
      MountCleanup();
      OverlayCleanup(ok);
      phase := Gone;
      overlay := overlay.(present := false);
    }

    /** Unmount: only a mounted component is torn down. */
    method Unmount(ok: bool)
      requires Replays()
      modifies this
      ensures Snapshot() == OnUnmount(old(Snapshot()), ok)
      ensures history == old(history) + [Unmounted(ok)] && Replays()
    {
      ghost var h := history;
      if phase == Live {
        Teardown(ok);
      }
      RunSnoc(Init, h, Unmounted(ok));
      history := h + [Unmounted(ok)];
    }
  }
}
