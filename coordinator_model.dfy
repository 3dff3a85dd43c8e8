/**
 * The scroll/video coordinator of the InteractiveOldPC component
 * (components/CanvasScroll.tsx), as pure transition functions.
 *
 * A State holds the component's ref cells (among them the two latches),
 * its React state, the bookkeeping of the overlay effect, the ambient
 * video element, the resources the mount effect owns (listeners, scroll
 * trigger, animation frame, renderer), the body's overflow style, and a
 * log of the calls the component has issued to the browser, the renderer,
 * the tweening library and React, in the order it issued them. Each
 * callback of the component is one function from the state before it runs
 * to the state after it has run to completion; Step and Run replay a
 * sequence of such events.
 */
module CoordinatorModel {

  datatype Option<T> = None | Some(value: T)

  /** Where the component stands in React's lifecycle. */
  datatype Phase = Fresh | Live | Gone

  /** The document-level gestures that retry a blocked ambient autoplay. */
  datatype Gesture = Click | TouchStart | KeyDown

  /** The listeners the mount effect registers. */
  datatype Listener = OnDocument(gesture: Gesture) | WindowMouseMove | WindowResize

  const AllListeners: set<Listener> :=
    {OnDocument(Click), OnDocument(TouchStart), OnDocument(KeyDown), WindowMouseMove, WindowResize}

  /** The call sites that ask the ambient video to play. */
  datatype PlaySite = InitialAutoplay | InteractionRetry | ScrollEnterResume | OverlayCleanupResume

  /** A call the component makes to the outside world. */
  datatype Effect =
    | AddListener(added: Listener)
    | RemoveListener(removed: Listener)
    | AmbientPlay(site: PlaySite)
    | AmbientPause
    | AmbientClearSource
    | AmbientLoad
    | FadeInStart
    | OverlayPlay
    | FadeOutStart
    | SetShowVideo(shown: bool)
    | SetShowProjects(revealed: bool)
    | SetOverflow(overflow: string)
    | RequestFrame
    | RenderFrame
    | CancelFrame
    | DisposeRenderer
    | KillTriggers

  /** The ambient HTMLVideoElement: its `paused` attribute and its `src`. */
  datatype Video = Video(paused: bool, src: string)

  const AmbientSource: string := "/video.mp4"

  /** Scroll progress at or above which the fullscreen overlay is requested. */
  const Threshold: real := 0.999

  /** The component's ref cells holding flags. */
  datatype Refs = Refs(
    isScrolling: bool,            // isScrollingRef
    playbackRequested: bool,      // videoPlaybackRequestedRef: the retry latch
    fullscreenTriggered: bool)    // fullscreenVideoTriggeredRef: the overlay latch

  /** The component's React state. */
  datatype View = View(showVideo: bool, showProjects: bool)

  /** The overlay: what its effect last ran with, and its DOM and tweens. */
  datatype Overlay = Overlay(
    committed: bool,              // the showVideo value the effects last ran with
    armed: bool,                  // the overlay effect returned its cleanup
    present: bool,                // videoContainerRef / overlayVideoRef are attached
    fadeInPending: bool,          // a fade-in tween whose onComplete has not run
    fadeOutPending: bool)         // a fade-out tween whose onComplete has not run

  /** What the mount effect acquires. */
  datatype Scene = Scene(
    attached: bool,               // the mount effect found its container and ran
    triggerAlive: bool,           // the ScrollTrigger delivers callbacks
    framePending: bool,           // an animation frame is requested
    rendererDisposed: bool,       // renderer.dispose() has run
    listeners: set<Listener>)     // listeners currently registered by the component

  datatype State = State(
    phase: Phase,
    refs: Refs,
    view: View,
    overlay: Overlay,
    ambient: Option<Video>,       // videoRef.current
    autoplayPending: bool,        // the autoplay play() promise has not settled
    scene: Scene,
    overflow: string,             // document.body.style.overflow
    log: seq<Effect>)

  /** The state of a freshly rendered component, before any effect ran. */
  const Init: State := State(
    Fresh, Refs(false, false, false), View(false, false), Overlay(false, false, false, false, false),
    None, false, Scene(false, false, false, false, {}), "", [])

  /** The events that reach the component from React, the browser and its libraries. */
  datatype Event =
    | Mounted(sceneContainer: bool, playReturnsPromise: bool, autoplayOk: bool)
    | AutoplaySettled(resolved: bool)
    | AmbientEnded
    | UserGesture(gesture: Gesture, playOk: bool)
    | TriggerEnter(playOk: bool)
    | TriggerLeaveBack
    | TriggerUpdate(progress: real)
    | Rerendered(playOk: bool)
    | FadeInCompleted
    | OverlayEnded
    | FadeOutCompleted
    | AnimationFrame
    | Unmounted(playOk: bool)

  /* ---------------- Primitive calls ---------------- */

  /** `videoRef.current.play()`; whether playback starts is decided by the browser (`ok`). */
  function PlayAmbient(s: State, site: PlaySite, ok: bool): (r: State)
    requires s.ambient.Some?
    ensures r.ambient.Some? && r.ambient.value.src == s.ambient.value.src
    ensures r.ambient.value.paused == (s.ambient.value.paused && !ok)
    ensures r.log == s.log + [AmbientPlay(site)]
  {
    s.(ambient := if ok then Some(s.ambient.value.(paused := false)) else s.ambient,
       log := s.log + [AmbientPlay(site)])
  }

  /** `setShowVideo(v)`; React ignores a setter called after unmount. */
  function WithShowVideo(s: State, v: bool): (r: State)
    ensures r.view.showVideo == (if s.phase == Gone then s.view.showVideo else v)
    ensures r.log == s.log + (if s.phase == Gone then [] else [SetShowVideo(v)])
    ensures s.phase == Gone ==> r == s
    ensures r == s.(view := s.view.(showVideo := r.view.showVideo), log := r.log)
  {
    if s.phase == Gone then s
    else s.(view := s.view.(showVideo := v), log := s.log + [SetShowVideo(v)])
  }

  /** `setShowProjects(v)`; React ignores a setter called after unmount. */
  function WithShowProjects(s: State, v: bool): (r: State)
    ensures r.view.showProjects == (if s.phase == Gone then s.view.showProjects else v)
    ensures r.log == s.log + (if s.phase == Gone then [] else [SetShowProjects(v)])
    ensures s.phase == Gone ==> r == s
    ensures r == s.(view := s.view.(showProjects := r.view.showProjects), log := r.log)
  {
    if s.phase == Gone then s
    else s.(view := s.view.(showProjects := v), log := s.log + [SetShowProjects(v)])
  }

  /* ---------------- Ambient video ---------------- */

  /**
   * Settlement of the promise returned by the autoplay `play()` in
   * initializeVideoPlayback: a resolution latches the request, a rejection
   * (the source failing to load, say) is only logged as a warning. Without
   * a pending promise nothing settles. The video already plays while the
   * promise is pending, so settling changes nothing about it.
   */
  function OnAutoplaySettled(s: State, resolved: bool): (r: State)
    ensures !r.autoplayPending
    ensures r.refs.playbackRequested == (s.refs.playbackRequested || (s.autoplayPending && resolved))
    ensures r.ambient == s.ambient && r.overlay == s.overlay && r.view == s.view
    ensures r.refs.fullscreenTriggered == s.refs.fullscreenTriggered && r.log == s.log
  {
    if !s.autoplayPending then s
    else if !resolved then s.(autoplayPending := false)
    else s.(autoplayPending := false, refs := s.refs.(playbackRequested := true))
  }

  /**
   * resumeVideoOnInteraction: retries `play()` once. The latch is set
   * whatever the retried `play()` does, so every later call is a no-op.
   */
  function ResumeVideoOnInteraction(s: State, ok: bool): (r: State)
    ensures r.refs.playbackRequested == (s.refs.playbackRequested || s.ambient.Some?)
    ensures s.refs.playbackRequested || s.ambient.None? ==> r.log == s.log && r.ambient == s.ambient
    ensures !s.refs.playbackRequested && s.ambient.Some? ==>
              r.log == s.log + [AmbientPlay(InteractionRetry)] &&
              r.ambient.Some? && r.ambient.value.paused == (s.ambient.value.paused && !ok)
    ensures r.scene == s.scene && r.refs.fullscreenTriggered == s.refs.fullscreenTriggered
  {
    if s.ambient.Some? && !s.refs.playbackRequested then
      PlayAmbient(s, InteractionRetry, ok).(refs := s.refs.(playbackRequested := true))
    else s
  }

  /** A click, touchstart or keydown on the document reaches the handler only while it is registered. */
  function OnGesture(s: State, g: Gesture, ok: bool): (r: State)
    ensures OnDocument(g) !in s.scene.listeners ==> r.log == s.log && r.ambient == s.ambient
    ensures r.refs.playbackRequested ==
              (s.refs.playbackRequested || (OnDocument(g) in s.scene.listeners && s.ambient.Some?))
    ensures r.scene == s.scene
  {
    if OnDocument(g) in s.scene.listeners then ResumeVideoOnInteraction(s, ok) else s
  }

  /**
   * The ambient clip reaches its end. The video is created with `loop`
   * false, so the browser pauses it there. Only a playing clip of a mounted
   * component can end, and not while the autoplay promise is pending: that
   * promise settles as soon as playback begins. The component does not
   * listen for this, so nothing is called.
   */
  function OnAmbientEnded(s: State): (r: State)
    ensures r.ambient.Some? == s.ambient.Some?
    ensures s.ambient.Some? ==> r.ambient.value.src == s.ambient.value.src
    ensures s.ambient.Some? ==>
              r.ambient.value.paused == (s.ambient.value.paused || (s.phase == Live && !s.autoplayPending))
    ensures r.phase == s.phase && r.refs == s.refs && r.view == s.view && r.overlay == s.overlay
    ensures r.scene == s.scene && r.autoplayPending == s.autoplayPending && r.log == s.log
    ensures r.overflow == s.overflow
  {
    if s.phase == Live && s.ambient.Some? && !s.ambient.value.paused && !s.autoplayPending then
      s.(ambient := Some(s.ambient.value.(paused := true)))
    else s
  }

  /* ---------------- ScrollTrigger callbacks ---------------- */

  /** onEnter: plays a paused ambient video without consulting either latch. */
  function OnEnter(s: State, ok: bool): (r: State)
    ensures r.refs.isScrolling == (s.refs.isScrolling || s.scene.triggerAlive)
    ensures r.refs.playbackRequested == s.refs.playbackRequested
    ensures r.refs.fullscreenTriggered == s.refs.fullscreenTriggered && r.view == s.view
    ensures s.scene.triggerAlive && s.ambient.Some? && s.ambient.value.paused ==>
              r.log == s.log + [AmbientPlay(ScrollEnterResume)] &&
              r.ambient.Some? && r.ambient.value.paused == !ok
    ensures !(s.scene.triggerAlive && s.ambient.Some? && s.ambient.value.paused) ==>
              r.log == s.log && r.ambient == s.ambient
  {
    if !s.scene.triggerAlive then s
    else
      var s1 := s.(refs := s.refs.(isScrolling := true));
      if s1.ambient.Some? && s1.ambient.value.paused then PlayAmbient(s1, ScrollEnterResume, ok)
      else s1
  }

  /** onLeaveBack: only clears isScrolling. */
  function OnLeaveBack(s: State): (r: State)
    ensures r.refs.isScrolling == (s.refs.isScrolling && !s.scene.triggerAlive)
    ensures r.log == s.log && r.ambient == s.ambient && r.view == s.view
  {
    if !s.scene.triggerAlive then s else s.(refs := s.refs.(isScrolling := false))
  }

  /**
   * handleFullscreenVideo: sets the latch, then asks React to show the
   * overlay; returns at once when the latch is already set.
   */
  function HandleFullscreenVideo(s: State): (r: State)
    ensures r.refs.fullscreenTriggered
    ensures s.refs.fullscreenTriggered ==> r.log == s.log && r.view == s.view
    ensures !s.refs.fullscreenTriggered && s.phase != Gone ==>
              r.view.showVideo && r.log == s.log + [SetShowVideo(true)]
    ensures r.refs.playbackRequested == s.refs.playbackRequested
    ensures r.view.showProjects == s.view.showProjects
  {
    if s.refs.fullscreenTriggered then s
    else WithShowVideo(s.(refs := s.refs.(fullscreenTriggered := true)), true)
  }

  /** onUpdate: hands over to handleFullscreenVideo at progress >= 0.999 while the latch is unset. */
  function OnUpdate(s: State, progress: real): (r: State)
    ensures (progress < Threshold || s.refs.fullscreenTriggered || !s.scene.triggerAlive) ==> r == s
    ensures s.scene.triggerAlive && progress >= Threshold ==> r.refs.fullscreenTriggered
    ensures s.scene.triggerAlive && progress >= Threshold && !s.refs.fullscreenTriggered && s.phase != Gone ==>
              r.view.showVideo && r.log == s.log + [SetShowVideo(true)]
  {
    if s.scene.triggerAlive && progress >= Threshold && !s.refs.fullscreenTriggered then
      HandleFullscreenVideo(s)
    else s
  }

  /* ---------------- Overlay ---------------- */

  /**
   * The overlay effect body: with the overlay shown and its container
   * attached, pause the ambient video, then start the fade-in; otherwise
   * return without registering a cleanup. Pausing rejects a pending
   * autoplay promise (it can then no longer resolve).
   */
  function OverlayEffect(s: State): (r: State)
    ensures r.overlay.armed == (s.overlay.committed && s.overlay.present)
    ensures !r.overlay.armed ==>
              r.log == s.log && r.ambient == s.ambient && r.overlay.fadeInPending == s.overlay.fadeInPending &&
              r.autoplayPending == s.autoplayPending
    ensures r.overlay.armed && s.ambient.Some? ==>
              r.log == s.log + [AmbientPause, FadeInStart] && r.ambient == Some(s.ambient.value.(paused := true)) &&
              !r.autoplayPending
    ensures r.overlay.armed && s.ambient.None? ==> r.log == s.log + [FadeInStart]
    ensures r.overlay.armed ==> r.overlay.fadeInPending
  {
    if !s.overlay.committed || !s.overlay.present then s.(overlay := s.overlay.(armed := false))
    else
      var s1 := if s.ambient.Some? then s.(ambient := Some(s.ambient.value.(paused := true)), autoplayPending := false,
                                           log := s.log + [AmbientPause])
                else s;
      s1.(overlay := s1.overlay.(fadeInPending := true, armed := true), log := s1.log + [FadeInStart])
  }

  /**
   * The overlay effect's cleanup: resumes the ambient video only when the
   * fullscreen latch is unset.
   */
  function OverlayCleanup(s: State, ok: bool): (r: State)
    ensures !r.overlay.armed
    ensures s.refs.fullscreenTriggered || s.ambient.None? || !s.overlay.armed ==>
              r.log == s.log && r.ambient == s.ambient
    ensures s.overlay.armed && s.ambient.Some? && !s.refs.fullscreenTriggered ==>
              r.log == s.log + [AmbientPlay(OverlayCleanupResume)]
  {
    if !s.overlay.armed then s
    else
      var s1 := s.(overlay := s.overlay.(armed := false));
      if s1.ambient.Some? && !s1.refs.fullscreenTriggered then PlayAmbient(s1, OverlayCleanupResume, ok) else s1
  }

  /** The fade-in's onComplete: the only place the overlay video is asked to play. */
  function OnFadeInComplete(s: State): (r: State)
    ensures !r.overlay.fadeInPending
    ensures r.log == s.log + (if s.overlay.fadeInPending && s.overlay.present then [OverlayPlay] else [])
  {
    if !s.overlay.fadeInPending then s
    else
      var s1 := s.(overlay := s.overlay.(fadeInPending := false));
      if s1.overlay.present then s1.(log := s1.log + [OverlayPlay]) else s1
  }

  /**
   * handleVideoEnded: reveals the projects at once, then fades the overlay
   * out; does nothing more when the overlay container is not attached.
   * showVideo itself is left alone.
   */
  function HandleVideoEnded(s: State): (r: State)
    ensures s.phase != Gone ==> r.view.showProjects
    ensures r.view.showVideo == s.view.showVideo && r.refs == s.refs
    ensures r.overlay.fadeOutPending == (s.overlay.fadeOutPending || s.overlay.present)
    ensures s.phase != Gone && s.overlay.present ==> r.log == s.log + [SetShowProjects(true), FadeOutStart]
    ensures !s.overlay.present ==> r.log == WithShowProjects(s, true).log
  {
    var s1 := WithShowProjects(s, true);
    if !s1.overlay.present then s1
    else s1.(overlay := s1.overlay.(fadeOutPending := true), log := s1.log + [FadeOutStart])
  }

  /** The fade-out's onComplete: the only place showVideo goes back to false. */
  function OnFadeOutComplete(s: State): (r: State)
    ensures !r.overlay.fadeOutPending
    ensures r.view.showProjects == s.view.showProjects && r.refs == s.refs
    ensures r.view.showVideo == (s.view.showVideo && !(s.overlay.fadeOutPending && s.phase != Gone))
  {
    if !s.overlay.fadeOutPending then s
    else WithShowVideo(s.(overlay := s.overlay.(fadeOutPending := false)), false)
  }

  /* ---------------- Body overflow ---------------- */

  /** The overflow effect body: hide page scrolling exactly while the overlay is shown. */
  function OverflowEffect(s: State): (r: State)
    ensures r.overflow == (if s.overlay.committed then "hidden" else "")
    ensures r.log == s.log + [SetOverflow(r.overflow)]
  {
    var v := if s.overlay.committed then "hidden" else "";
    s.(overflow := v, log := s.log + [SetOverflow(v)])
  }

  /** The overflow effect's cleanup: restore page scrolling. */
  function OverflowCleanup(s: State): (r: State)
    ensures r.overflow == "" && r.log == s.log + [SetOverflow("")]
  {
    s.(overflow := "", log := s.log + [SetOverflow("")])
  }

  /* ---------------- Mount and unmount ---------------- */

  /** The listener registrations of the mount effect, in order. */
  const AddCalls: seq<Effect> :=
    [AddListener(OnDocument(Click)), AddListener(OnDocument(TouchStart)), AddListener(OnDocument(KeyDown)),
     AddListener(WindowMouseMove), AddListener(WindowResize)]

  /** After registering the listeners, the mount effect starts the autoplay attempt and the render loop. */
  const MountTail: seq<Effect> := [AmbientPlay(InitialAutoplay), RequestFrame, RenderFrame]

  /** The calls the mount effect issues, in order. */
  const MountCalls: seq<Effect> := AddCalls + MountTail

  /** The listener removals of the mount effect's cleanup, in order. */
  const RemoveCalls: seq<Effect> :=
    [RemoveListener(WindowMouseMove), RemoveListener(WindowResize),
     RemoveListener(OnDocument(Click)), RemoveListener(OnDocument(TouchStart)), RemoveListener(OnDocument(KeyDown))]

  /** The ambient video's release: pause, empty its source, reload it. */
  const ReleaseAmbientCalls: seq<Effect> := [AmbientPause, AmbientClearSource, AmbientLoad]

  /** The render loop's and the scroll triggers' release. */
  const ReleaseSceneCalls: seq<Effect> := [CancelFrame, DisposeRenderer, KillTriggers]

  /**
   * The mount effect body: without its container it returns at once;
   * otherwise it registers the five listeners, creates the ambient video
   * (paused, with its source), creates the scroll trigger, starts the
   * autoplay attempt and the render loop. The browser decides whether the
   * autoplay `play()` starts playback (`autoplayOk`); a refused `play()`
   * leaves the video paused and its promise, if any, rejected at once, so
   * a promise stays pending only for a video that plays.
   */
  function MountEffect(s: State, sceneContainer: bool, playReturnsPromise: bool, autoplayOk: bool): (r: State)
    ensures !sceneContainer ==> r.log == s.log && r.scene == s.scene && r.ambient == s.ambient
    ensures sceneContainer ==>
              r.scene == Scene(true, true, true, s.scene.rendererDisposed, s.scene.listeners + AllListeners) &&
              r.ambient == Some(Video(!autoplayOk, AmbientSource)) &&
              r.autoplayPending == (playReturnsPromise && autoplayOk) &&
              r.log == s.log + MountCalls
    ensures r.refs == s.refs && r.view == s.view
  {
    if !sceneContainer then s
    else s.(scene := Scene(true, true, true, s.scene.rendererDisposed, s.scene.listeners + AllListeners),
            ambient := Some(Video(!autoplayOk, AmbientSource)),
            autoplayPending := playReturnsPromise && autoplayOk,
            log := s.log + MountCalls)
  }

  /** The releases of the mount effect's cleanup, in order; the ambient video's only when it exists. */
  function ReleaseCalls(hasAmbient: bool): (calls: seq<Effect>) {
    (if hasAmbient then ReleaseAmbientCalls else []) + ReleaseSceneCalls
  }

  /** The calls of the mount effect's cleanup, in order. */
  function CleanupCalls(hasAmbient: bool): (calls: seq<Effect>) {
    RemoveCalls + ReleaseCalls(hasAmbient)
  }

  /**
   * The mount effect's cleanup: removes every listener the body added,
   * pauses, empties and reloads the ambient video (which aborts a pending
   * autoplay promise), cancels the animation frame, then disposes the
   * renderer and kills the scroll triggers.
   */
  function MountCleanup(s: State): (r: State)
    ensures !s.scene.attached ==> r.log == s.log && r.scene == s.scene && r.ambient == s.ambient
    ensures s.scene.attached ==>
              r.scene == Scene(true, false, false, true, s.scene.listeners - AllListeners) &&
              !r.autoplayPending &&
              r.ambient == (if s.ambient.Some? then Some(Video(true, "")) else None) &&
              r.log == s.log + CleanupCalls(s.ambient.Some?)
    ensures r.refs == s.refs && r.view == s.view
  {
    if !s.scene.attached then s
    else
      s.(scene := Scene(true, false, false, true, s.scene.listeners - AllListeners),
         ambient := if s.ambient.Some? then Some(Video(true, "")) else None,
         autoplayPending := false,
         log := s.log + CleanupCalls(s.ambient.Some?))
  }

  /** React's commit of a render: the overlay container is attached exactly while showVideo is. */
  function CommitRender(s: State): (r: State)
    ensures r.overlay.committed == s.view.showVideo && r.overlay.present == s.view.showVideo
    ensures r.log == s.log
  {
    s.(overlay := s.overlay.(committed := s.view.showVideo, present := s.view.showVideo))
  }

  /**
   * The first commit: the effects run in declaration order (overflow,
   * mount, overlay). A component mounts once.
   */
  function OnMount(s: State, sceneContainer: bool, playReturnsPromise: bool, autoplayOk: bool): (r: State)
    ensures s.phase != Fresh ==> r == s
    ensures s.phase == Fresh ==> r.phase == Live && r.scene.attached == (s.scene.attached || sceneContainer)
    ensures s.phase == Fresh ==> r.overflow == (if s.view.showVideo then "hidden" else "")
    ensures r.refs == s.refs && r.view == s.view
  {
    if s.phase != Fresh then s
    else OverlayEffect(MountEffect(OverflowEffect(CommitRender(s.(phase := Live))), sceneContainer, playReturnsPromise, autoplayOk))
  }

  /**
   * A re-render after showVideo changed: the effects depending on showVideo
   * run their cleanups (overflow, overlay) and then their bodies again.
   * A render that did not change showVideo runs no effect.
   */
  function OnRerender(s: State, ok: bool): (r: State)
    ensures s.phase != Live || s.view.showVideo == s.overlay.committed ==> r == s
    ensures s.phase == Live && s.view.showVideo != s.overlay.committed ==>
              r.overlay.committed == s.view.showVideo && r.overlay.present == s.view.showVideo &&
              r.overflow == (if s.view.showVideo then "hidden" else "") && r.overlay.armed == s.view.showVideo
    ensures r.refs == s.refs && r.view == s.view
  {
    if s.phase != Live || s.view.showVideo == s.overlay.committed then s
    else OverlayEffect(OverflowEffect(OverlayCleanup(OverflowCleanup(CommitRender(s)), ok)))
  }

  /**
   * Unmount: every effect's cleanup runs in declaration order (overflow,
   * mount, overlay) and React detaches the overlay refs. Unmounting twice
   * changes nothing.
   */
  function OnUnmount(s: State, ok: bool): (r: State)
    ensures s.phase != Live ==> r == s
    ensures s.phase == Live ==> r.phase == Gone && r.overflow == "" && !r.overlay.present && !r.overlay.armed
    ensures s.phase == Live && s.scene.attached ==>
              r.scene.listeners == s.scene.listeners - AllListeners &&
              !r.scene.framePending && r.scene.rendererDisposed && !r.scene.triggerAlive
    ensures r.refs == s.refs && r.view == s.view
  {
    if s.phase != Live then s
    else
      var r := OverlayCleanup(MountCleanup(OverflowCleanup(s)), ok);
      r.(phase := Gone, overlay := r.overlay.(present := false))
  }

  /** One tick of the render loop: request the next frame, then draw. */
  function OnAnimationFrame(s: State): (r: State)
    ensures r.log == s.log + (if s.scene.framePending then [RequestFrame, RenderFrame] else [])
  {
    if !s.scene.framePending then s else s.(log := s.log + [RequestFrame, RenderFrame])
  }

  /* ---------------- Traces ---------------- */

  /** How many times the call `x` occurs in `log`. */
  function Count(log: seq<Effect>, x: Effect): (n: nat)
    ensures n <= |log|
  {
    if log == [] then 0 else (if log[0] == x then 1 else 0) + Count(log[1..], x)
  }

  /** A call that registers or unregisters a listener. */
  predicate IsRegistration(e: Effect) {
    e.AddListener? || e.RemoveListener?
  }

  /** The listener registrations and removals in `log`, in the order they were made. */
  function Registrations(log: seq<Effect>): (r: seq<Effect>)
    ensures |r| <= |log|
  {
    if log == [] then []
    else (if IsRegistration(log[0]) then [log[0]] else []) + Registrations(log[1..])
  }

  /** The component's reaction to one event. */
  function Step(s: State, e: Event): (r: State) {
    match e
    case Mounted(c, p, ok) => OnMount(s, c, p, ok)
    case AutoplaySettled(resolved) => OnAutoplaySettled(s, resolved)
    case AmbientEnded => OnAmbientEnded(s)
    case UserGesture(g, ok) => OnGesture(s, g, ok)
    case TriggerEnter(ok) => OnEnter(s, ok)
    case TriggerLeaveBack => OnLeaveBack(s)
    case TriggerUpdate(p) => OnUpdate(s, p)
    case Rerendered(ok) => OnRerender(s, ok)
    case FadeInCompleted => OnFadeInComplete(s)
    case OverlayEnded => HandleVideoEnded(s)
    case FadeOutCompleted => OnFadeOutComplete(s)
    case AnimationFrame => OnAnimationFrame(s)
    case Unmounted(ok) => OnUnmount(s, ok)
  }

  /** The state after the events `es`, delivered one at a time. */
  function Run(s: State, es: seq<Event>): (r: State)
    decreases |es|
  {
    if es == [] then s else Run(Step(s, es[0]), es[1..])
  }

  /** Delivering one more event takes one more step from where the earlier events left the component. */
  lemma {:induction false} RunSnoc(s: State, es: seq<Event>, e: Event)
    ensures Run(s, es + [e]) == Step(Run(s, es), e)
    decreases |es|
  {
    if es == [] {
      assert [] + [e] == [e] && [e][1..] == [];
    } else {
      assert (es + [e])[0] == es[0] && (es + [e])[1..] == es[1..] + [e];
      RunSnoc(Step(s, es[0]), es[1..], e);
    }
  }
}
