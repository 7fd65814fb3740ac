# VideoCanvas engine and base-frame loader: a Dafny model

This project models the animation engine of the agent's video canvas. It also
models the hook that streams the agent's base frames to that engine.

The engine (`components/VideoCanvas.js`):

- **Queue.** The engine keeps a FIFO queue of animation sets. Each set is a
  server payload of overlay sections. It is tagged with a chunk index and a
  unique set id, taken from a counter unless the caller forces one.
- **Playing a set.** When the assets are loaded and nothing plays, the head
  set is dequeued. Its non-empty sections become overlays, in section order,
  each with fresh playback state.
- **Overlays.** On every draw-loop tick, each overlay:
  - starts when the base cursor sits on its first frame's base frame and
    moves in the overlay's direction;
  - draws one frame per tick while playing, and is done after its last frame;
  - fires its audio-start callback at most once: when it draws frame 3 of a
    turn's first chunk, or frame 0 of any later chunk.
- **Cleanup.** Done overlays are dropped. When none are left, the next set
  is played, or the cursor is sent back to the nearer of the agent's two
  transition frames.
- **Cursor.** The cursor moves according to the mode:
  - idle: ping-pong over the idle frames, inside a user-input sub-range at
    double speed when that is active;
  - talking: ping-pong over the talking frames;
  - transition: one forward pass over the chosen transition's frames,
    then back to idle at frame 0.
- **Idle completion.** Idle with nothing queued and nothing playing reports
  completion at most once per installed set.
- **Overlay images.** Images streamed for overlay frames are cached under a
  four-number key. Raw base64 gets a JPEG data-URI prefix.

The loader (`src/hooks/useVideoCanvasSpriteLoader.js`):

- **Load order.** It requests `Idle_1`, `Talking_1`, `TR_1` and `TR_2` in
  that order, one after another.
- **Frames.** Each streamed frame is appended, as a base64 data URI, to the
  list of its type.
- **Loading bar.** The bar follows the idle animation only.
- **Gate.** The `isAssetsLoaded` gate the engine waits for opens once the
  idle animation is complete.
- **Agent change.** An agent change clears the frames, the progress and the
  gate. In the same render, the start and request effects still see the
  loading type from before the reset. If nothing was loading, the sequence
  restarts at `Idle_1`. If a type was loading, that type is requested again
  for the new agent, and the sequence goes on from it when it completes.

## Layout

- `overlays.dfy`, `cursor.dfy` and `overlay_cache.dfy` are pure. They hold
  overlay construction, one overlay's tick, the cursor arithmetic and the
  image cache key.
- `engine_model.dfy` is the engine state as a value, with one function per
  phase of a tick and per entry point. `engine_lemmas.dfy` proves the
  engine invariant and the behaviour over several ticks.
- `video_canvas.dfy` is the component as a class. Its fields hold the
  component's refs, which the component keeps side by side; the model
  gathers them into three records. Each method
  updates them in place and is proved to take the abstract state to the
  matching function of `engine_model.dfy`. The two loops of a tick (the
  overlay step and the cleanup) are methods on sequences, proved against
  the same functions.
- `sprite_loader.dfy` is the loader hook. Its handlers are functions on a
  state value, mirrored by a class whose methods update the hook's state
  variables.
- `agent_config.dfy` holds the agent's display and transition settings and
  their defaults. `text.dfy` and `wrappers.dfy` are helpers.

## Behaviour of the code worth knowing

- **An invalid set at the head of the queue is consumed.** The `shift`
  happens before the check, so the set is not retried. The mode is set to
  idle if the queue is then empty, even in the middle of a transition.
- **An overlay is done when its drawing frame reaches the frame count.**
  The last frame is drawn on the tick that makes it done.
- **The completion flag is re-armed only when a set is installed.** Entering
  talking or transition mode does not re-arm it.
- **Audio is not guaranteed.** An overlay of a turn's first chunk with fewer
  than four frames never fires its audio start (`Overlays.FullPlayAudio`).
- **Talking can stall.** A hand-off can dequeue a set that cannot be
  installed. This happens when its data array is non-empty but has no
  usable first entry or sections, or when it is empty or missing and more
  sets wait behind it. Only the playing flag is cleared. The engine then
  stays in talking mode with no return pending. Every tick is the talking
  bounce, the hand-off never fires again and new sets are only queued. No
  completion is reported until the assets flag changes and the queue is
  tried again.
- **The idle cursor can pause at frame 0.** Falling back to idle on arrival
  sets frame 0 but keeps the backward direction of the walk. The next idle
  tick stays on frame 0 and turns forward.
- **An agent change in the middle of a load does not restart it.** The
  request for the type that was loading goes out again, for the new agent.
  If that type was `Idle_1`, its completion opens the gate and the rest of
  the order follows. If it was a later type, the gate stays closed: the
  idle animation is never requested again.
- **A stale transition point can survive.** When the chosen transition has
  no frames, the engine falls back to idle without clearing the chosen
  point. A later return walks to that same point.

## Model

| member | source | states |
|---|---|---|
| `AgentConfig.Display` | components/VideoCanvas.js:110-126 | each field on its own is the agent's value when it is a number (a positive one for width and height) and its default (150, 30, 200, 200, 53, 83) otherwise; width and height are always positive |
| `AgentConfig.DisplayDefaults` | components/VideoCanvas.js:118-125 | with no agent or no usable field, the configuration is 150, 30, 200, 200 with transition frames 53 and 83 |
| `Overlays.MakeOverlay` | components/VideoCanvas.js:321-342 | an overlay has one frame per section entry, its section index, chunk index and set id |
| `Overlays.MakeOverlayFrames` | components/VideoCanvas.js:323-333 | every frame keeps its base frame number and frame index; a frame without a mode takes the set's; the overlay's mode is its first frame's |
| `Overlays.BuildOverlaysSpec` | components/VideoCanvas.js:320-343 | the overlays are exactly one per non-empty section, in strictly increasing section order, each built from its section |
| `Overlays.BuiltOverlaysNonEmpty` | components/VideoCanvas.js:322 | no overlay has an empty frame list |
| `Overlays.StepOverlay` | components/VideoCanvas.js:527-644 | an overlay starts if and only if it waits and the cursor is on its first base frame going its way; a done overlay is untouched; a drawing overlay advances one frame and is done exactly at its last; audio fires if and only if it is due at the frame shown and has not fired |
| `Overlays.StepKeepsLive` | components/VideoCanvas.js:555-641 | a live overlay stays live or becomes done; it never plays past its last frame |
| `Overlays.AudioAtMostOnce` | components/VideoCanvas.js:614-630 | over any sequence of ticks, an overlay fires its audio start at most once, and never again once fired |
| `Overlays.PlayingRun` | components/VideoCanvas.js:632-640 | a playing overlay given as many ticks as it has frames left ends done, with one audio start exactly when one was due in the remaining frames |
| `Overlays.PlayingNotDoneEarly` | components/VideoCanvas.js:632-640 | before its last frame a playing overlay is still playing, one frame further per tick |
| `Overlays.FullPlayAudio` | components/VideoCanvas.js:614-622 | an overlay played from its start through all its frames ends done and fires its audio exactly once if it belongs to a later chunk or has at least four frames, else never |
| `Overlays.StepAllSpec` | components/VideoCanvas.js:526-644 | the overlay pass steps every overlay with the same cursor, each on its own state; the mode switches to talking if and only if some overlay starts |
| `Overlays.StepAllExtend` | components/VideoCanvas.js:527 | stepping one more overlay appends its new state and its audio event to those of the overlays before it |
| `Overlays.ActiveIndices` | components/VideoCanvas.js:649-654 | the kept positions are exactly those not done, in increasing order |
| `Overlays.KeepActive` | components/VideoCanvas.js:647-654 | the kept overlays and states are those at the positions not done, in order and paired |
| `Overlays.KeepActiveExtend` | components/VideoCanvas.js:649-653 | pruning one more position keeps it exactly when it is not done |
| `Overlays.KeepActiveNoneDone` | components/VideoCanvas.js:655 | when no overlay is done, cleanup changes nothing |
| `Overlays.KeepActiveSameLength` | components/VideoCanvas.js:655-660 | when cleanup keeps as many overlays as there were, it keeps them all unchanged, so skipping the update is sound |
| `Overlays.KeepActiveAllLive` | components/VideoCanvas.js:646-660 | after cleanup no overlay is done, and every kept pair is live |
| `CursorSteps.NearestTransitionPoint` | components/VideoCanvas.js:450-454 | the result is one of the two points, at least as near as either, and the first one on a tie |
| `CursorSteps.IdleCursor` | components/VideoCanvas.js:800-844 | the direction stays 1 or -1; with no frames the cursor does not move |
| `CursorSteps.TalkingCursor` | components/VideoCanvas.js:857-882 | the direction stays 1 or -1; with no frames the cursor does not move |
| `CursorSteps.TalkingIsIdleWithoutSubRange` | components/VideoCanvas.js:800-882 | the talking bounce is the idle bounce without the sub-range |
| `CursorSteps.IdleCursorBounces` | components/VideoCanvas.js:830-843 | the idle cursor stays within the frames and moves one frame per tick, turning round on touching either end; a cursor pointing off an end (frame 0 going backward, or the last frame going forward) stays for one tick and turns |
| `CursorSteps.SubRangeCatchUp` | components/VideoCanvas.js:805-829 | outside the user-input sub-range the cursor heads for it at double speed, without passing its edge |
| `CursorSteps.SubRangeStaysInside` | components/VideoCanvas.js:830-843 | inside the sub-range the cursor stays inside it |
| `CursorSteps.IdleRunAdditive` | components/VideoCanvas.js:800-844 | a + b idle ticks are a ticks then b ticks |
| `CursorSteps.IdleRunUp` | components/VideoCanvas.js:832-837 | going forward, the cursor reaches the last frame and turns back |
| `CursorSteps.IdleRunDown` | components/VideoCanvas.js:838-841 | going backward, the cursor reaches frame 0 and turns forward |
| `CursorSteps.IdleRoundTrip` | components/VideoCanvas.js:830-843 | from frame 0 going forward, 2(N-1) idle ticks over N frames bring the cursor back to frame 0 going forward |
| `EngineModel.Initial` | components/VideoCanvas.js:137-183 | at mount the engine is idle at frame 0 going forward, with nothing queued, playing or reported |
| `EngineModel.InitialValid` | components/VideoCanvas.js:137-183 | the state at mount satisfies the engine invariant |
| `EngineModel.FreshStates` | components/VideoCanvas.js:347-352 | one fresh playback state per overlay |
| `EngineModel.ProcessAnimationData` | components/VideoCanvas.js:292-361 | a missing or empty payload, target or section list only clears the playing flag; otherwise the overlays are replaced with fresh states and the completion flag is re-armed, and nothing else changes |
| `EngineModel.InstallBuildsOverlays` | components/VideoCanvas.js:305-343 | the installed overlays are those built from the target's sections with its mode, chunk index and set id |
| `EngineModel.DequeueSpec` | components/VideoCanvas.js:365-403 | without loaded assets, with a set playing or with an empty queue nothing changes; otherwise the head is removed, an invalid head clears the playing flag (and goes idle if the queue is now empty), a valid head is installed, and a first chunk while talking restarts the cursor at frame 0 |
| `EngineModel.DequeueInstallsHead` | components/VideoCanvas.js:384-402 | the set installed is the head of the queue, with its own chunk index and set id |
| `EngineModel.FramesCount` | components/VideoCanvas.js:486-501 | the frame list drawn is idle's, talking's (idle's when talking has none) or the chosen transition's |
| `EngineModel.DequeueIfPending` | components/VideoCanvas.js:774-777 | with an empty queue nothing changes |
| `EngineLemmas.InstallKeepsValid` | components/VideoCanvas.js:292-361 | installing a set keeps the engine invariant |
| `EngineLemmas.DequeueKeepsValid` | components/VideoCanvas.js:365-403 | dequeuing keeps the engine invariant |
| `EngineLemmas.EnqueueKeepsValid` | components/VideoCanvas.js:408-445 | receiving a set keeps the engine invariant |
| `EngineLemmas.SetAssetsLoadedKeepsValid` | components/VideoCanvas.js:912-917 | the assets flag effect keeps the engine invariant |
| `EngineLemmas.AdvanceKeepsValid` | components/VideoCanvas.js:526-644 | after the overlay pass every overlay is live or done, and the rest of the invariant holds |
| `EngineLemmas.PruneRestoresValid` | components/VideoCanvas.js:646-660 | cleanup restores the full invariant |
| `EngineLemmas.HandOffKeepsValid` | components/VideoCanvas.js:662-672 | the hand-off at the end of a set keeps the invariant |
| `EngineLemmas.ChooseKeepsValid` | components/VideoCanvas.js:738-745 | choosing the return point keeps the invariant |
| `EngineLemmas.ArriveKeepsValid` | components/VideoCanvas.js:752-777 | arriving at the return point keeps the invariant |
| `EngineLemmas.ReturnToFrameKeepsValid` | components/VideoCanvas.js:747-778 | a return step keeps the invariant |
| `EngineLemmas.EndTransitionKeepsValid` | components/VideoCanvas.js:788-792 | going idle at frame 0 with the choice cleared keeps the invariant |
| `EngineLemmas.TransitionStepKeepsValid` | components/VideoCanvas.js:779-799 | a transition step keeps the invariant |
| `EngineLemmas.IdleStepKeepsValid` | components/VideoCanvas.js:800-856 | an idle step keeps the invariant |
| `EngineLemmas.CursorStepKeepsValid` | components/VideoCanvas.js:736-882 | the cursor phase keeps the invariant in every mode |
| `EngineLemmas.TickKeepsValid` | components/VideoCanvas.js:477-887 | every tick keeps the engine invariant: overlays and states stay paired and live, no overlays without a set, a transition always has its choice, and completions are logged once per arming |
| `EngineLemmas.TickN` | components/VideoCanvas.js:886 | any number of ticks keeps the invariant |
| `EngineLemmas.CompletionAtMostOncePerSet` | components/VideoCanvas.js:847-856 | idle completion is reported at most once per installed set |
| `EngineLemmas.QuietIdleTick` | components/VideoCanvas.js:800-856 | a quiet idle tick moves the cursor by the idle bounce, changes nothing else and reports completion once |
| `EngineLemmas.QuietIdleRun` | components/VideoCanvas.js:800-856 | k quiet idle ticks move the cursor by k idle bounces and report completion at most once |
| `EngineLemmas.QuietIdleRoundTrip` | components/VideoCanvas.js:800-856 | a quiet idle engine at frame 0 comes back to frame 0 going forward after 2(N-1) ticks, having reported completion exactly once |
| `EngineLemmas.ReturnPoint` | components/VideoCanvas.js:738-747 | the return point is the chosen one, else the nearer transition point |
| `EngineLemmas.QuietTickIsCursorStep` | components/VideoCanvas.js:526-672 | with no overlays and no set playing, a tick is just the cursor phase |
| `EngineLemmas.ReturnWalkTowards` | components/VideoCanvas.js:748-751 | away from the return point the cursor moves one frame towards it |
| `EngineLemmas.ReturnArrives` | components/VideoCanvas.js:752-773 | at the return point the chosen transition starts at frame 0 going forward, or the engine goes idle at frame 0 when it has no frames |
| `EngineLemmas.ChooseKeepsOthers` | components/VideoCanvas.js:738-745 | choosing touches only the choice, and the point chosen is the return point |
| `EngineLemmas.ReturnWalk` | components/VideoCanvas.js:737-778 | the cursor phase of a returning tick moves towards the return point or, on it, enters the transition |
| `EngineLemmas.ReturnStep` | components/VideoCanvas.js:662-778 | a whole returning tick walks one frame nearer to the return point, or on arrival enters the chosen transition or idle |
| `EngineLemmas.TransitionStepLemma` | components/VideoCanvas.js:779-799 | a transition advances one frame per tick, and after its last frame goes idle at frame 0 going forward with the choice cleared |
| `EngineLemmas.EnqueueAppends` | components/VideoCanvas.js:411-422 | a set that cannot play at once is appended to the queue with its id; nothing that plays changes |
| `EngineLemmas.QueueIsFifo` | components/VideoCanvas.js:384-402 | of two queued sets the first is installed first, and the second stays queued |
| `EngineLemmas.SetIdsFromCounter` | components/VideoCanvas.js:412-416 | without forced ids, consecutive sets get consecutive ids from the counter |
| `EngineLemmas.HandOffCanStall` | components/VideoCanvas.js:365-403 | when the hand-off in talking mode dequeues a set that cannot be installed, the set is removed, and the engine is left talking with nothing playing and no return pending exactly when the set's data array was non-empty or more sets wait; otherwise it goes idle |
| `EngineLemmas.StalledTalkingTick` | components/VideoCanvas.js:857-882 | a tick of a stalled engine is the talking bounce and changes nothing else |
| `EngineLemmas.StalledTalkingRun` | components/VideoCanvas.js:662-672 | any number of ticks leave a stalled engine stalled, with the same queue, no overlays and no new completion |
| `EngineLemmas.StalledTalkingQueues` | components/VideoCanvas.js:430-437 | a set arriving at a stalled engine is only queued, and the engine stays stalled |
| `EngineLemmas.StallExample` | components/VideoCanvas.js:662-668 | a talking tick whose hand-off dequeues a set with no first entry ends stalled, with an empty queue |
| `OverlayCache.SplitOverlayKey` | components/VideoCanvas.js:978 | a key splits on its dashes into the four numbers |
| `OverlayCache.ParseOverlayKeyRoundTrip` | components/VideoCanvas.js:978 | the four numbers can be read back from a key |
| `OverlayCache.OverlayKeyInjective` | components/VideoCanvas.js:978 | distinct frames never share a cache slot |
| `OverlayCache.DrawLookupFindsOwnImage` | components/VideoCanvas.js:586-587 | the draw loop's lookup for an overlay frame, keyed by the overlay's chunk and section and the frame's base-frame number and ordinal, finds an incoming image's source exactly when that image was streamed for that frame, and is otherwise unaffected by it |
| `OverlayCache.ImageSource` | components/VideoCanvas.js:979-984 | the source is a data URI; one already given is kept, raw data keeps its bytes as the suffix |
| `OverlayCache.ImageSourceIdempotent` | components/VideoCanvas.js:979-984 | prefixing twice is prefixing once |
| `OverlayCache.CacheFrameImage` | components/VideoCanvas.js:965-995 | an incomplete frame changes nothing; otherwise exactly its key is set, to its image source, and every other entry is kept |
| `VideoCanvas.VideoCanvasEngine.constructor` | components/VideoCanvas.js:137-183 | a new engine is in the initial state with an empty image cache, and satisfies the invariant |
| `VideoCanvas.VideoCanvasEngine.ProcessAnimationData` | components/VideoCanvas.js:292-361 | installs a set in place, as `EngineModel.ProcessAnimationData`, keeping the invariant |
| `VideoCanvas.VideoCanvasEngine.ProcessNextAnimationSet` | components/VideoCanvas.js:365-403 | dequeues in place, as `EngineModel.ProcessNextAnimationSet`, keeping the invariant |
| `VideoCanvas.VideoCanvasEngine.HandleIncomingAnimationData` | components/VideoCanvas.js:408-445 | enqueues in place, as `EngineModel.HandleIncomingAnimationData`, and keeps the invariant |
| `VideoCanvas.VideoCanvasEngine.SetFrameLists` | components/VideoCanvas.js:188-241 | only the frame lists change |
| `VideoCanvas.VideoCanvasEngine.SetBaseFrames` | components/VideoCanvas.js:942-947 | a non-empty list replaces the idle frames; an empty one changes nothing |
| `VideoCanvas.VideoCanvasEngine.SetAssetsLoaded` | components/VideoCanvas.js:912-917 | the assets flag changes and the queue is tried, as `EngineModel.SetAssetsLoaded`, keeping the invariant |
| `VideoCanvas.VideoCanvasEngine.SetAgent` | components/VideoCanvas.js:110-129 | only the transition points change, to the agent's configuration |
| `VideoCanvas.VideoCanvasEngine.SetUserInputSentToBackend` | components/VideoCanvas.js:959-963 | only the user-input flag changes, to true |
| `VideoCanvas.VideoCanvasEngine.HandleIncomingFrameImage` | components/VideoCanvas.js:965-995 | the cache changes as `OverlayCache.CacheFrameImage`; the engine state does not |
| `VideoCanvas.VideoCanvasEngine.CurrentFramesCount` | components/VideoCanvas.js:486-501 | returns the length of the frame list drawn in the current mode |
| `VideoCanvas.VideoCanvasEngine.AdvanceOverlays` | components/VideoCanvas.js:526-644 | the overlay pass in place, as `EngineModel.AdvanceOverlays` |
| `VideoCanvas.VideoCanvasEngine.PruneOverlays` | components/VideoCanvas.js:646-660 | cleanup in place, as `EngineModel.Prune` |
| `VideoCanvas.VideoCanvasEngine.HandOff` | components/VideoCanvas.js:662-672 | the end-of-set hand-off in place, as `EngineModel.HandOff` |
| `VideoCanvas.VideoCanvasEngine.DequeueIfPending` | components/VideoCanvas.js:774-777 | tries the queue when it is not empty |
| `VideoCanvas.VideoCanvasEngine.ChooseTransition` | components/VideoCanvas.js:738-745 | picks the return point in place |
| `VideoCanvas.VideoCanvasEngine.Arrive` | components/VideoCanvas.js:752-777 | enters the chosen transition or idle in place |
| `VideoCanvas.VideoCanvasEngine.ReturnToFrame` | components/VideoCanvas.js:747-778 | one return step in place |
| `VideoCanvas.VideoCanvasEngine.StepTransition` | components/VideoCanvas.js:779-799 | one transition step in place |
| `VideoCanvas.VideoCanvasEngine.StepIdle` | components/VideoCanvas.js:800-856 | one idle step in place |
| `VideoCanvas.VideoCanvasEngine.StepTalking` | components/VideoCanvas.js:857-882 | the cursor moves by the talking bounce; nothing else changes |
| `VideoCanvas.VideoCanvasEngine.StepCursor` | components/VideoCanvas.js:736-882 | the cursor phase in place, as `EngineModel.CursorStep` |
| `VideoCanvas.VideoCanvasEngine.Tick` | components/VideoCanvas.js:477-887 | one draw-loop tick in place, as `EngineModel.Tick`, keeping the invariant |
| `VideoCanvas.StepEach` | components/VideoCanvas.js:526-644 | the `forEach` over the overlays computes exactly the new states, start flag and audio events of `Overlays.StepAll` |
| `VideoCanvas.ActiveOf` | components/VideoCanvas.js:647-654 | the cleanup loop keeps exactly `Overlays.KeepActive` |
| `SpriteLoader.IndexOf` | src/hooks/useVideoCanvasSpriteLoader.js:118 | the first position of the type in the order, or -1 exactly when it does not occur |
| `SpriteLoader.LoadOrderAdvances` | src/hooks/useVideoCanvasSpriteLoader.js:118-128 | completing a type moves the sequence to the next type in the order; the last one or an unknown type ends it |
| `SpriteLoader.SplitAtFirst` | src/hooks/useVideoCanvasSpriteLoader.js:97 | splits a URI at the first `;`, or fails exactly when there is none |
| `SpriteLoader.FrameUriRoundTrip` | src/hooks/useVideoCanvasSpriteLoader.js:97 | a stored frame URI gives back its MIME type and its data |
| `SpriteLoader.RoundHalfUp` | src/hooks/useVideoCanvasSpriteLoader.js:177 | the result is the integer nearest to the quotient, halves rounded up |
| `SpriteLoader.PercentLoaded` | src/hooks/useVideoCanvasSpriteLoader.js:177 | the loading percentage never exceeds 100 |
| `SpriteLoader.PercentLoadedEnds` | src/hooks/useVideoCanvasSpriteLoader.js:177 | the bar is at 0 with no idle frame and at 100 once all announced idle frames have arrived |
| `SpriteLoader.PercentLoadedMonotone` | src/hooks/useVideoCanvasSpriteLoader.js:177 | the bar never goes back as idle frames arrive |
| `SpriteLoader.ResetForAgent` | src/hooks/useVideoCanvasSpriteLoader.js:52-65 | an agent change keeps the announced total at least 1 |
| `SpriteLoader.TotalFrames` | src/hooks/useVideoCanvasSpriteLoader.js:71-79 | the announced total stays at least 1 whatever the server reports |
| `SpriteLoader.ReceiveBaseFrame` | src/hooks/useVideoCanvasSpriteLoader.js:81-103 | receiving a frame keeps the announced total at least 1 |
| `SpriteLoader.FramesComplete` | src/hooks/useVideoCanvasSpriteLoader.js:105-129 | completing a type keeps the announced total at least 1 |
| `SpriteLoader.BeginLoading` | src/hooks/useVideoCanvasSpriteLoader.js:136-151 | starting the sequence keeps the announced total at least 1 |
| `SpriteLoader.ReceiveAppendsToOne` | src/hooks/useVideoCanvasSpriteLoader.js:81-98 | a frame is appended, as its data URI, to exactly the list of its type; a frame of an unknown type changes nothing |
| `SpriteLoader.ReceiveProgress` | src/hooks/useVideoCanvasSpriteLoader.js:99-102 | only an idle frame moves the progress, by one |
| `SpriteLoader.ReceiveCounts` | src/hooks/useVideoCanvasSpriteLoader.js:81-103 | the engine sees exactly one more frame after a frame of a known type |
| `SpriteLoader.AssetsGate` | src/hooks/useVideoCanvasSpriteLoader.js:52-129 | the gate opens only when the idle animation completes and closes only on an agent change |
| `SpriteLoader.AgentChangeResets` | src/hooks/useVideoCanvasSpriteLoader.js:52-63 | an agent change empties every list, resets the progress to 0 of 1, closes the gate and stops the sequence |
| `SpriteLoader.AgentChangeCommit` | src/hooks/useVideoCanvasSpriteLoader.js:52-151 | the render of an agent change always leaves a valid loader (announced total at least 1) |
| `SpriteLoader.AgentChangeDuringLoad` | src/hooks/useVideoCanvasSpriteLoader.js:52-172 | an agent change clears the lists, progress and gate; it moves the sequence to `Idle_1` if and only if loading can start and nothing was loading before it; exactly one request goes out for the new agent: the type that was loading, else `Idle_1` when loading can start, and none when requests cannot be sent |
| `SpriteLoader.NextIsNeverIdle` | src/hooks/useVideoCanvasSpriteLoader.js:117-128 | no completion moves the sequence to `Idle_1` |
| `SpriteLoader.GateStaysClosed` | src/hooks/useVideoCanvasSpriteLoader.js:105-129 | with the gate closed and `Idle_1` not loading, completing the requested types in turn never opens the gate |
| `SpriteLoader.AgentChangeMidLoad` | src/hooks/useVideoCanvasSpriteLoader.js:105-172 | after an agent change in the middle of a load, completing the re-requested type moves the sequence on from it; it opens the gate exactly when it is `Idle_1`, after which the rest of the order follows to the end; for a later type the gate never opens however many requested types complete |
| `SpriteLoader.AgentChangeFromIdle` | src/hooks/useVideoCanvasSpriteLoader.js:136-151 | from a loader with nothing loading, the agent-change render is the reset followed by the start of the sequence |
| `SpriteLoader.FullLoadSequence` | src/hooks/useVideoCanvasSpriteLoader.js:105-172 | after an agent change while nothing was loading, completing each requested type requests the four types in load order, opens the gate at the first completion, and then requests nothing |
| `SpriteLoader.BaseFrameLoader.constructor` | src/hooks/useVideoCanvasSpriteLoader.js:34-47 | a new loader has no frames, progress 0 of 1, a closed gate and nothing loading, and is valid |
| `SpriteLoader.BaseFrameLoader.AgentChanged` | src/hooks/useVideoCanvasSpriteLoader.js:52-65 | the agent-change effect in place, as `ResetForAgent` |
| `SpriteLoader.BaseFrameLoader.CommitAgentChange` | src/hooks/useVideoCanvasSpriteLoader.js:52-172 | the agent-change render in place, as `AgentChangeCommit`, returning the requests emitted, as `AgentChangeRequests`, and keeping the announced total at least 1 |
| `SpriteLoader.BaseFrameLoader.HandleAnimationTotalFrames` | src/hooks/useVideoCanvasSpriteLoader.js:71-79 | the total handler in place, as `TotalFrames` |
| `SpriteLoader.BaseFrameLoader.HandleReceiveBaseFrame` | src/hooks/useVideoCanvasSpriteLoader.js:81-103 | the frame handler in place, as `ReceiveBaseFrame` |
| `SpriteLoader.BaseFrameLoader.HandleAnimationFramesComplete` | src/hooks/useVideoCanvasSpriteLoader.js:105-129 | the completion handler in place, as `FramesComplete` |
| `SpriteLoader.BaseFrameLoader.StartLoading` | src/hooks/useVideoCanvasSpriteLoader.js:136-151 | the listener effect in place, as `BeginLoading` |
| `SpriteLoader.BaseFrameLoader.LoadingPercentage` | src/hooks/useVideoCanvasSpriteLoader.js:177 | returns the loading percentage, at most 100; every loader method keeps the announced total at least 1, so it is always defined |

## Left out

- Canvas drawing is not modelled: clearing, drawing the base image, feathered overlays and alpha fades. Both fade constants are 0 and the values are floating point.
- Sprite-sheet drawing is not modelled, because `DRAW_OVERLAY_SPRITE` is false; `setSpriteSheets` only stores sheets for that path.
- The debug text drawn when `DRAW_ON_CANVAS` is set is not modelled.
- Frame timing is not modelled: the 24 fps throttle, `requestAnimationFrame` and unmount cleanup. The model counts ticks, one per drawn frame.
- Images are opaque. The engine holds the frame-list lengths; the loader holds data-URI strings; the overlay cache maps keys to image sources, not `Image` objects or their load state (`complete`).
- The callbacks `onAnimationChunkStart` and `onAnimationComplete` are assumed present. Their calls are recorded as logs, and the one-argument form used without a set id is not modelled, because every queued set has an id.
- Socket I/O is left out: attaching and detaching listeners, and emitting the request. `SpriteLoader.RequestedType` gives the type a request would carry, and `BeginLoading` takes the "can start" condition as a boolean.
- React re-rendering and state batching are not modelled. Each loader state update takes effect at once, and the engine reads the latest props.
- `VideoCanvas.VideoCanvasEngine.AdvanceOverlays` builds the new playback states as a new list. The source mutates the state objects in place, and no other reference to them exists.
- Sections that are not arrays, and a missing frame mode on both levels (which would throw in `toLowerCase`), are not modelled; a missing mode is the empty string.
- `OverlayCache.CacheFrameImage`: a null `section_index`, `matched_sprite_frame_number` or `frame_index` is treated like a missing one and the image is dropped. The source tests only for `undefined`, so it stores such an image under a key containing `null`.
- `SpriteLoader.BeginLoading` and `SpriteLoader.FullLoadSequence` take the loading type as it is when the listener effect runs. On an agent change the effect reads the type from before the reset, which `AgentChangeCommit` and `AgentChangeRequests` model. `FullLoadSequence` covers only a change while nothing was loading; a change in the middle of a load is covered by `AgentChangeMidLoad`. Frames of the stale type that were already on their way for the old agent are not told apart from those for the new one.
- Positions and transition points are taken as integers. The source accepts any number. With a transition point that is not an integer, the return walk steps back and forth around it and never arrives.
- `Text.Lower` folds ASCII letters only. It is applied only to the modes `forward` and `reverse`, where this makes no difference.
- `SpriteLoader.PercentLoaded` uses exact rational rounding. The source divides in floating point before rounding, which can differ only on values within rounding error of a half.
- `SpriteLoader.FrameUriRoundTrip` covers MIME types without `;`, the form MIME types take.
