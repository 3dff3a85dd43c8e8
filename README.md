# InteractiveOldPC scroll/video coordinator in Dafny

`InteractiveOldPC` (components/CanvasScroll.tsx) is a scroll-driven page. A 3D monitor shows an
ambient video. When the scroll progress reaches 0.999, a fullscreen overlay video fades in. When
the overlay video ends, the projects section is revealed and the overlay fades out. This project
models the part of the component that coordinates all this:

- the two ref-cell latches: `fullscreenVideoTriggeredRef` and `videoPlaybackRequestedRef`;
- the React state `showVideo` and `showProjects`;
- the ambient video element's `paused` flag and `src`;
- the overlay container and its fade tweens;
- `document.body.style.overflow`;
- the listeners, scroll trigger, animation frame and renderer that the mount effect acquires and
  its cleanup releases.

The project has four modules:

- `CoordinatorModel` (coordinator_model.dfy): the state as a datatype `State`, plus one pure
  transition function per callback and per effect body or cleanup. Each callback runs to
  completion, from the state before it to the state after it. Every call the component makes goes
  into a log, in order:
  - `play()`/`pause()`/`load()` on the ambient video;
  - `play()` on the overlay video;
  - the fade tweens;
  - the React setters;
  - listener registrations;
  - frame requests, renderer disposal, trigger kills.

  `Step` and `Run` replay any sequence of events: mount, autoplay settlement, the ambient clip
  playing to its end, gestures, the ScrollTrigger callbacks, re-renders, tween completions, the
  overlay's `ended` event, animation frames and unmount.
- `CoordinatorInvariant` (coordinator_invariant.dfy): an invariant of every reachable state, and
  its preservation by every event. The invariant covers:
  - the latches against the overlay bookkeeping;
  - the resources held, exactly while mounted;
  - the counts of the calls in the log;
  - the listener registrations made so far.
- `CoordinatorProperties` (coordinator_properties.dfy): what holds after every sequence of events
  delivered to a freshly rendered component.
- `CanvasScroll` (interactive_old_pc.dfy): the component as the class `InteractiveOldPC`. Its
  fields are the latches, state, video, overlay, resources, overflow and calls. It has one method
  per callback, and each method updates the fields step by step in the order of the component's
  code. Each method is proved to leave the object in exactly the state that the matching
  `CoordinatorModel` function gives (`Snapshot() == F(old(Snapshot()), …)`).

  Thirteen methods are events: `Mount`, `AutoplaySettled`, `AmbientEnded`, `Gesture`, `Enter`,
  `LeaveBack`, `Update`, `Rerender`, `FadeInComplete`, `HandleVideoEnded`, `FadeOutComplete`,
  `AnimationFrame` and `Unmount`. Each one also appends its event to a ghost `history` and keeps
  `Replays()`, which says the object equals `Run(Init, history)`. The constructor establishes
  `Replays()`. So everything proved about `Run` holds of an object that only its constructor and
  event methods have touched. `Update` shows this by proving that `setShowVideo(true)` appears at
  most once in the object's calls.

  The other methods are the sub-steps those events are made of: the setters, `PlayAmbient`,
  `HandleFullscreenVideo`, `ResumeVideoOnInteraction`, the effect bodies and cleanups,
  `CommitRender` and `Teardown`. Each leaves the history as it was, so calling one of them on its
  own is not an event, and it gives up `Replays()`.

How React is modelled:

- On the first commit the effects run in declaration order: overflow, mount, overlay.
- A re-render that changed `showVideo` runs the cleanups of the two effects that depend on
  `showVideo`, then their bodies again. A re-render that did not change it runs no effect.
- On unmount every cleanup runs in declaration order, and React detaches the overlay refs.
- State setters called after unmount are ignored.

What the environment decides is an input to the model:

- whether `play()` starts playback, including the autoplay `play()` at mount;
- when the ambient clip plays to its end: the video does not loop (line 33), so the browser
  pauses it there;
- whether the autoplay `play()` returns a promise, and whether a pending one resolves;
- whether the scene container exists at mount;
- the scroll progress.

Tween completions can arrive only while the tween is running. The autoplay settlement can arrive
only while its promise is pending, and a promise stays pending only for a video the browser let
play: a refused `play()` rejects its promise at once. The overlay effect's `pause()` (line 607)
rejects a pending autoplay promise, and so do the cleanup's `pause()` and `load()` (lines
582-584); the rejection is only logged. Progress is a `real`.

## Model

| member | source | states |
|---|---|---|
| CoordinatorModel.PlayAmbient | components/CanvasScroll.tsx:62 | `play()` on the ambient video, called at lines 62, 481 and 630, is logged at its call site; it unpauses the video exactly when the browser lets it play, and keeps its source |
| CoordinatorModel.WithShowVideo | components/CanvasScroll.tsx:24 | `setShowVideo(v)` sets showVideo to v and logs the call, and changes nothing else; once the component is gone nothing changes at all |
| CoordinatorModel.WithShowProjects | components/CanvasScroll.tsx:27 | `setShowProjects(v)` sets showProjects to v and logs the call, and changes nothing else; once the component is gone nothing changes at all |
| CoordinatorModel.OnAmbientEnded | components/CanvasScroll.tsx:33 | a clip that does not loop pauses at its end: the ambient video becomes paused exactly when the component is live and no autoplay promise is pending, its source is kept, and nothing else changes, the log included |
| CoordinatorModel.OnAutoplaySettled | components/CanvasScroll.tsx:47-57 | once the autoplay promise settles none is pending; the retry latch becomes set exactly when the pending promise resolved, so a rejection leaves it as it was; the video, the overlay, the React state and the log are unchanged |
| CoordinatorModel.ResumeVideoOnInteraction | components/CanvasScroll.tsx:60-65 | the retry latch is set afterwards exactly when the ambient video exists, whether or not the retried `play()` succeeds; with the latch already set, or without a video, nothing is logged and the video is unchanged; otherwise exactly one retry `play()` is logged |
| CoordinatorModel.OnGesture | components/CanvasScroll.tsx:105-107 | a click, touchstart or keydown runs the retry only while its listener is registered; the registered listeners never change |
| CoordinatorModel.OnEnter | components/CanvasScroll.tsx:478-483 | while the trigger is alive, onEnter sets isScrolling and plays the ambient video exactly when it is paused, without consulting or changing either latch or the React state |
| CoordinatorModel.OnLeaveBack | components/CanvasScroll.tsx:484-486 | onLeaveBack clears isScrolling while the trigger is alive and issues no call |
| CoordinatorModel.HandleFullscreenVideo | components/CanvasScroll.tsx:68-74 | the fullscreen latch is set afterwards; a call with the latch already set changes neither the log nor the view; the first call sets showVideo and logs `setShowVideo(true)` |
| CoordinatorModel.OnUpdate | components/CanvasScroll.tsx:487-494 | below 0.999, with the latch set, or once the trigger is killed, onUpdate changes nothing; at 0.999 or above with the latch unset it sets the latch, shows the video and logs exactly `setShowVideo(true)` |
| CoordinatorModel.OverlayEffect | components/CanvasScroll.tsx:602-624 | the effect arms its cleanup exactly when showVideo is committed and the container is attached; otherwise it issues nothing and leaves a pending autoplay alone; when armed it pauses the ambient video before starting the fade-in, and the pause leaves no autoplay promise pending |
| CoordinatorModel.OverlayCleanup | components/CanvasScroll.tsx:626-632 | the cleanup resumes the ambient video only when the fullscreen latch is unset, and it disarms itself |
| CoordinatorModel.OnFadeInComplete | components/CanvasScroll.tsx:618-622 | the fade-in's completion asks the overlay video to play exactly when the tween was running and the overlay is still attached |
| CoordinatorModel.HandleVideoEnded | components/CanvasScroll.tsx:77-90 | showProjects is set before the fade-out starts; without the container no fade-out starts and showVideo is unchanged |
| CoordinatorModel.OnFadeOutComplete | components/CanvasScroll.tsx:86-88 | the fade-out's completion clears showVideo exactly when the tween was running and the component is mounted; showProjects and the latches are unchanged |
| CoordinatorModel.OverflowEffect | components/CanvasScroll.tsx:94-95 | the body's overflow is "hidden" when the committed showVideo is true, and "" otherwise |
| CoordinatorModel.OverflowCleanup | components/CanvasScroll.tsx:96-98 | the cleanup resets the body's overflow to "" |
| CoordinatorModel.MountEffect | components/CanvasScroll.tsx:101-571 | without its container the effect does nothing; otherwise it does all of the following: registers the five listeners, creates the ambient video with source "/video.mp4", playing exactly when the browser allows the autoplay `play()`, leaves a promise pending exactly when `play()` returned one and playback was allowed, arms the trigger and the frame loop, and logs the registrations, the autoplay `play()` and the first frame in order |
| CoordinatorModel.MountCleanup | components/CanvasScroll.tsx:574-598 | after a mount that ran, the cleanup does all of the following: removes all five listeners, pauses, empties and reloads the ambient video, drops the pending autoplay, stops the trigger and the frame loop, disposes the renderer, and logs the calls in the code's order |
| CoordinatorModel.CommitRender | components/CanvasScroll.tsx:663-678 | the overlay container and video are attached exactly while showVideo is true |
| CoordinatorModel.OnMount | components/CanvasScroll.tsx:94-633 | the first commit makes the component live, holds the scene exactly when the container exists, sets the overflow from showVideo, and leaves the latches and React state untouched; a second mount changes nothing |
| CoordinatorModel.OnRerender | components/CanvasScroll.tsx:94-633 | a re-render that changed showVideo commits it, sets the overflow from it and re-arms the overlay effect exactly when it is true; a re-render that did not change it changes nothing |
| CoordinatorModel.OnUnmount | components/CanvasScroll.tsx:94-633 | unmount makes the component gone, resets the overflow, detaches the overlay and disarms its cleanup; after a mount that ran, it removes the listeners, stops the trigger and frame loop and disposes the renderer; a second unmount changes nothing |
| CoordinatorModel.OnAnimationFrame | components/CanvasScroll.tsx:547-571 | a frame requests the next frame and then renders, only while the loop runs |
| CoordinatorInvariant.InitInv | components/CanvasScroll.tsx:15-27 | a freshly rendered component satisfies the invariant |
| CoordinatorInvariant.MountKeepsInv | components/CanvasScroll.tsx:94-633 | the first commit preserves the invariant |
| CoordinatorInvariant.AutoplayKeepsInv | components/CanvasScroll.tsx:47-57 | the autoplay settlement preserves the invariant |
| CoordinatorInvariant.AmbientEndedKeepsInv | components/CanvasScroll.tsx:33 | the ambient clip ending preserves the invariant, in particular that a pending autoplay promise means a playing video |
| CoordinatorInvariant.GestureKeepsInv | components/CanvasScroll.tsx:60-65 | a gesture preserves the invariant |
| CoordinatorInvariant.EnterKeepsInv | components/CanvasScroll.tsx:478-483 | onEnter preserves the invariant |
| CoordinatorInvariant.LeaveBackKeepsInv | components/CanvasScroll.tsx:484-486 | onLeaveBack preserves the invariant |
| CoordinatorInvariant.UpdateKeepsInv | components/CanvasScroll.tsx:487-494 | onUpdate preserves the invariant |
| CoordinatorInvariant.RerenderKeepsInv | components/CanvasScroll.tsx:94-633 | a re-render, which runs the cleanups and bodies of the overflow and overlay effects, preserves the invariant |
| CoordinatorInvariant.FadeInKeepsInv | components/CanvasScroll.tsx:618-622 | the fade-in's completion preserves the invariant |
| CoordinatorInvariant.VideoEndedKeepsInv | components/CanvasScroll.tsx:77-90 | the overlay's `ended` handler preserves the invariant |
| CoordinatorInvariant.FadeOutKeepsInv | components/CanvasScroll.tsx:86-88 | the fade-out's completion preserves the invariant |
| CoordinatorInvariant.FrameKeepsInv | components/CanvasScroll.tsx:547-571 | an animation frame preserves the invariant |
| CoordinatorInvariant.UnmountKeepsInv | components/CanvasScroll.tsx:574-598 | unmount preserves the invariant |
| CoordinatorInvariant.StepKeepsInv | components/CanvasScroll.tsx:15-633 | every event preserves the invariant |
| CoordinatorInvariant.RunKeepsInv | components/CanvasScroll.tsx:15-633 | every sequence of events preserves the invariant |
| CoordinatorProperties.ReachableInv | components/CanvasScroll.tsx:15-633 | every state reached from a fresh component satisfies the invariant |
| CoordinatorProperties.FullscreenShownAtMostOnce | components/CanvasScroll.tsx:68-74 | after any events, `setShowVideo(true)` was called at most once, and exactly once if and only if the fullscreen latch is set |
| CoordinatorProperties.RetryPlaysAtMostOnce | components/CanvasScroll.tsx:60-65 | after any events, the interaction retry played the ambient video at most once, and only with the retry latch set |
| CoordinatorProperties.OverlayCleanupNeverResumes | components/CanvasScroll.tsx:626-632 | after any events, the overlay cleanup has never played the ambient video |
| CoordinatorProperties.OverlayPlaysOnlyAfterFadeIn | components/CanvasScroll.tsx:611-624 | after any events, no more overlay `play()` calls than fade-ins were issued |
| CoordinatorProperties.OverflowHiddenExactlyWhileShown | components/CanvasScroll.tsx:94-99 | after any events, the body's overflow is "hidden" exactly while the component is mounted with showVideo committed true, and "" otherwise |
| CoordinatorProperties.ListenersBalanced | components/CanvasScroll.tsx:105-107 | after any events, the registrations in the log are the five additions while mounted, followed by their five removals once unmounted; no listener remains registered after unmount |
| CoordinatorProperties.RemovalsMatchRegistrations | components/CanvasScroll.tsx:575-579 | every listener is both added by the mount effect and removed by its cleanup |
| CoordinatorProperties.DisposedOnceOnUnmount | components/CanvasScroll.tsx:588 | after any events, the renderer was disposed once if the component unmounted after a mount that ran, and never otherwise |
| CoordinatorProperties.AmbientReleasedOnUnmount | components/CanvasScroll.tsx:581-585 | after unmount the ambient video is paused with an empty source, and no autoplay promise is pending |
| CoordinatorProperties.CancelBeforeDispose | components/CanvasScroll.tsx:587-588 | in the mount cleanup's calls the animation frame is cancelled before the renderer is disposed: no disposal precedes the cancellation and no cancellation follows the disposal |
| CoordinatorProperties.GoneStepQuiet | components/CanvasScroll.tsx:574-598 | once the component is gone, no event revives it and no call it makes takes effect: the log stays as it is |
| CoordinatorProperties.TeardownIsFinal | components/CanvasScroll.tsx:574-598 | once the component is gone, no sequence of late callbacks makes a call that takes effect |
| CoordinatorProperties.StepKeepsLatches | components/CanvasScroll.tsx:47-90 | no event clears the fullscreen latch or the retry latch, or sets showProjects back to false |
| CoordinatorProperties.LatchesNeverCleared | components/CanvasScroll.tsx:47-90 | both latches and showProjects stay set for every later sequence of events |
| CoordinatorProperties.ShowVideoClearedOnlyByFadeOut | components/CanvasScroll.tsx:86-88 | showVideo goes from true to false only through a running fade-out's completion, and the projects are revealed by then |
| CoordinatorProperties.AutoplayPendingOnlyBeforeOverlay | components/CanvasScroll.tsx:47-57 | after any events, a pending autoplay promise means the component is mounted, the overlay is not shown and has never been (no fade-in was ever started), and the ambient video plays; so its resolution, which only sets the latch, never coincides with the overlay |
| CoordinatorProperties.EnterReplaysEndedClip | components/CanvasScroll.tsx:478-483 | mount with autoplay allowed, its resolution, the clip ending, onLeaveBack, then onEnter: the last call is onEnter's `play()`, and the ambient video plays again with no overlay |
| CoordinatorProperties.AmbientMayPlayUnderOverlay | components/CanvasScroll.tsx:478-483 | mount with autoplay allowed, progress 1.0, the re-render, onLeaveBack, then onEnter: the ambient video plays again while the overlay is attached |
| CoordinatorProperties.RetryMayPlayUnderOverlay | components/CanvasScroll.tsx:60-65 | mount with autoplay refused, progress 1.0, the re-render, then a click: the retry plays the ambient video while the overlay is attached, and both latches end up set |
| CoordinatorModel.RunSnoc | components/CanvasScroll.tsx:15-633 | delivering one more event takes one step from the state the earlier events reached |
| CanvasScroll.InteractiveOldPC.constructor | components/CanvasScroll.tsx:15-27 | a new component has every ref and piece of state at its initial value, an empty history, and is the `Run` of that history |
| CanvasScroll.InteractiveOldPC.PlayAmbient | components/CanvasScroll.tsx:62 | the object ends in the state given by `CoordinatorModel.PlayAmbient`; the history is unchanged |
| CanvasScroll.InteractiveOldPC.SetShowVideo | components/CanvasScroll.tsx:24 | the object ends in the state given by `WithShowVideo`; the history is unchanged |
| CanvasScroll.InteractiveOldPC.SetShowProjects | components/CanvasScroll.tsx:27 | the object ends in the state given by `WithShowProjects`; the history is unchanged |
| CanvasScroll.InteractiveOldPC.AmbientEnded | components/CanvasScroll.tsx:33 | the object ends in the state given by `OnAmbientEnded`; the event is appended to the history, and the object stays the `Run` of its history |
| CanvasScroll.InteractiveOldPC.AutoplaySettled | components/CanvasScroll.tsx:47-57 | the object ends in the state given by `OnAutoplaySettled`; the event is appended to the history, and the object stays the `Run` of its history |
| CanvasScroll.InteractiveOldPC.ResumeVideoOnInteraction | components/CanvasScroll.tsx:60-65 | the object ends in the state given by `CoordinatorModel.ResumeVideoOnInteraction`; the history is unchanged |
| CanvasScroll.InteractiveOldPC.Gesture | components/CanvasScroll.tsx:105-107 | the object ends in the state given by `OnGesture`; the event is appended to the history, and the object stays the `Run` of its history |
| CanvasScroll.InteractiveOldPC.Enter | components/CanvasScroll.tsx:478-483 | the object ends in the state given by `OnEnter`; the event is appended to the history, and the object stays the `Run` of its history |
| CanvasScroll.InteractiveOldPC.LeaveBack | components/CanvasScroll.tsx:484-486 | the object ends in the state given by `OnLeaveBack`; the event is appended to the history, and the object stays the `Run` of its history |
| CanvasScroll.InteractiveOldPC.HandleFullscreenVideo | components/CanvasScroll.tsx:68-74 | the object ends in the state given by `CoordinatorModel.HandleFullscreenVideo`; the history is unchanged |
| CanvasScroll.InteractiveOldPC.Update | components/CanvasScroll.tsx:487-494 | the object ends in the state given by `OnUpdate`; the event is appended to the history, the object stays the `Run` of its history, and `setShowVideo(true)` appears at most once in its calls however often the progress crosses 0.999 |
| CanvasScroll.InteractiveOldPC.OverlayEffect | components/CanvasScroll.tsx:602-624 | the object ends in the state given by `CoordinatorModel.OverlayEffect`; the history is unchanged |
| CanvasScroll.InteractiveOldPC.OverlayCleanup | components/CanvasScroll.tsx:626-632 | the object ends in the state given by `CoordinatorModel.OverlayCleanup`; the history is unchanged |
| CanvasScroll.InteractiveOldPC.FadeInComplete | components/CanvasScroll.tsx:618-622 | the object ends in the state given by `OnFadeInComplete`; the event is appended to the history, and the object stays the `Run` of its history |
| CanvasScroll.InteractiveOldPC.HandleVideoEnded | components/CanvasScroll.tsx:77-90 | the object ends in the state given by `CoordinatorModel.HandleVideoEnded`; the event is appended to the history, and the object stays the `Run` of its history |
| CanvasScroll.InteractiveOldPC.FadeOutComplete | components/CanvasScroll.tsx:86-88 | the object ends in the state given by `OnFadeOutComplete`; the event is appended to the history, and the object stays the `Run` of its history |
| CanvasScroll.InteractiveOldPC.OverflowEffect | components/CanvasScroll.tsx:94-95 | the object ends in the state given by `CoordinatorModel.OverflowEffect`; the history is unchanged |
| CanvasScroll.InteractiveOldPC.OverflowCleanup | components/CanvasScroll.tsx:96-98 | the object ends in the state given by `CoordinatorModel.OverflowCleanup`; the history is unchanged |
| CanvasScroll.InteractiveOldPC.MountEffect | components/CanvasScroll.tsx:101-571 | the object ends in the state given by `CoordinatorModel.MountEffect`; the history is unchanged |
| CanvasScroll.InteractiveOldPC.MountCleanup | components/CanvasScroll.tsx:574-598 | the object ends in the state given by `CoordinatorModel.MountCleanup`; the history is unchanged |
| CanvasScroll.InteractiveOldPC.CommitRender | components/CanvasScroll.tsx:663-678 | the object ends in the state given by `CoordinatorModel.CommitRender`; the history is unchanged |
| CanvasScroll.InteractiveOldPC.Mount | components/CanvasScroll.tsx:94-633 | the object ends in the state given by `OnMount`; the event is appended to the history, and the object stays the `Run` of its history |
| CanvasScroll.InteractiveOldPC.Rerender | components/CanvasScroll.tsx:94-633 | the object ends in the state given by `OnRerender`; the event is appended to the history, and the object stays the `Run` of its history |
| CanvasScroll.InteractiveOldPC.AnimationFrame | components/CanvasScroll.tsx:547-571 | the object ends in the state given by `OnAnimationFrame`; the event is appended to the history, and the object stays the `Run` of its history |
| CanvasScroll.InteractiveOldPC.Teardown | components/CanvasScroll.tsx:574-598 | for a mounted component, the object ends in the state given by `OnUnmount`, running the three cleanups in declaration order; the history is unchanged |
| CanvasScroll.InteractiveOldPC.Unmount | components/CanvasScroll.tsx:574-598 | the object ends in the state given by `OnUnmount`; the event is appended to the history, and the object stays the `Run` of its history |

`OverflowHiddenExactlyWhileShown` is stated against the committed `showVideo`: the value the
overflow effect last ran with. Between a `setShowVideo` call and the commit that follows it, the
effect has not yet run, so the body's overflow still follows the previous value.

## Where the code does not do what its comments and names suggest

The model follows the code in each case:

- **Retry listeners.** `resumeVideoOnInteraction` suggests a one-shot resume. Its listeners,
  however, stay registered until unmount, and they become no-ops once the retry latch is set
  (line 61). The model keeps them registered, and `ListenersBalanced` states that.
- **Ambient video under the overlay.** The comment at line 605 says the 3D scene's video is
  paused while the fullscreen video plays. Nothing keeps it paused: two callbacks can start it
  again while the overlay is shown, and neither consults the fullscreen latch.
  - `onEnter` (lines 480-482) plays a paused ambient video. `AmbientMayPlayUnderOverlay` shows
    this happening after the user scrolls back to the top and forward again. That needs the
    viewport to scroll although the body's overflow is hidden while the overlay is shown (line
    95), which most platforms do not allow.
  - The interaction retry (lines 60-65) plays it when autoplay was refused and the first gesture
    comes while the overlay is up. `RetryMayPlayUnderOverlay` shows this with a click on the
    overlay. This is the path a user can readily take.

  The autoplay promise is not a third path: `AutoplayPendingOnlyBeforeOverlay` proves that it
  is never pending once the overlay has been shown.
- **Ambient resume after the overlay.** The comment at line 628 says the cleanup resumes the 3D
  scene's video when the overlay closes. That resume (line 629) can never run, because the
  fullscreen latch is always set by then. `OverlayCleanupNeverResumes` proves this.

## Left out

- Three.js scene construction (lines 109-464): meshes, materials, lights, textures, shaders and
  the `Math.random` call. These are declarative calls into an external library; the model keeps
  only "the renderer exists / is disposed".
- The GSAP timeline's targets, easing and opacity interpolation (lines 470-518, 611-617, 82-85).
  They are floating-point animation inside an external library; only the completion callbacks
  are modelled, as events.
- The render loop's mouse-position mapping, smoothing, oscillation, LED pulse and scanline offset
  (lines 524-529, 550-569). These are floating-point numerics; a frame is modelled as
  "request the next frame, render".
- The bodies of the mousemove and resize handlers (lines 526-529, 533-538). Only their
  registration and removal are modelled.
- `ScrollTrigger.getById`, `getAll`, `refresh` and the removal of the canvas (lines 520-521, 537,
  593, 595-597). These are foreign library calls and DOM calls. Killing the triggers is one
  logged call, and the model treats the trigger as stopped after unmount.
- The `scrollTo` effect (lines 91-93), the HUD, the `Projects` component and the rest of the
  JSX (lines 635-684). These are UI and I/O; only the overlay's attachment while `showVideo` is
  true is modelled.
- The overlay video's `autoPlay` attribute (line 672). The browser may start the overlay video
  on its own when it is attached. The model tracks only explicit `play()` calls, so
  `OverlayPlaysOnlyAfterFadeIn` speaks about those calls.
- The promise mechanics of `play()` and the console warnings (lines 40, 55, 620). Whether
  playback starts is an input. The autoplay promise's settlement is an event that can arrive
  only while it is pending.
- The video element is modelled as a value (`paused`, `src`), not as a shared object with an
  identity. `videoRef.current` is assigned once (line 188) and never reassigned. The texture
  (line 190) and `initializeVideoPlayback` (line 541) also hold the element, but only read it or
  call `play()` on it.
- The order in which ScrollTrigger delivers `onEnter`, `onLeaveBack` and `onUpdate` is not
  constrained: any of them may arrive at any time. The model therefore allows more sequences
  than scrolling can produce, and every property it proves holds for all of them.
- The overlay's `ended` event may be delivered at any time, even when no overlay video is
  attached. In the page it can only come from the attached `<video>` (line 674). The model thus
  allows more sequences than the page can produce, and every property it proves holds for all
  of them.
- `HandleVideoEnded` and `OnFadeOutComplete` track at most one running fade-out. If the overlay
  clip ends a second time, the handler at lines 77-90 starts a second tween, and both tweens
  call `setShowVideo(false)` when they complete. The model logs both `FadeOutStart` calls but
  only one `setShowVideo(false)`.
- The sub-step methods of `InteractiveOldPC` can be called on their own. What is proved about
  `Run` covers only an object driven by its constructor and event methods.
- React's scheduling is abstracted. A state update takes effect at the next `Rerendered` event,
  and batching and strict-mode double effects are not modelled.
