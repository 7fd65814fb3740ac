/**
  The video canvas component's engine as an object. The component keeps
  its refs side by side; here they are gathered into three records (the
  props the engine reads, the cursor and return-to-frame refs, the set and
  overlay refs), which the imperative handle, the prop effects and the draw loop
  update in place. Every method is proved to take the abstract state
  `State()` to the value the matching function of `EngineModel`
  prescribes, so the properties proved about those functions hold for the
  object.
*/
module VideoCanvas {
  import opened Wrappers
  import opened Text
  import opened Overlays
  import opened CursorSteps
  import opened EngineModel
  import opened EngineLemmas
  import opened OverlayCache
  import opened AgentConfig

  /** The props the engine reads: base frame list lengths, the assets flag, the agent's transition points. */
  datatype Props = Props(frames: FrameCounts, assetsLoaded: bool, tr1: int, tr2: int)

  /** The base cursor, the mode, the return-to-frame refs and the user-input sub-range flag. */
  datatype CursorRefs = CursorRefs(
    mode: Mode,
    gfi: int,
    fd: int,
    shouldReturnToFrame: bool,
    chosenTransition: Option<int>,
    chosenTransitionMode: Option<TransitionKind>,
    userInputActive: bool)

  /** The queue, the playing set's overlays and their states, the set counter and the completion flag. */
  datatype SetRefs = SetRefs(
    queue: seq<AnimationSet>,
    isSetPlaying: bool,
    overlays: seq<Overlay>,
    states: seq<PlaybackState>,
    globalSetId: int,
    hasAnimationCompleted: bool)

  /** The callbacks as seen from outside: the arming epoch, the chunk starts and the completions reported. */
  datatype CallbackLog = CallbackLog(arming: nat, chunkStarts: seq<ChunkStart>, completions: seq<nat>)

  class VideoCanvasEngine {
    var props: Props
    var cursor: CursorRefs
    var sets: SetRefs
    /** Overlay frame images by cache key (the image source string of each). */
    var overlayImages: map<string, string>
    ghost var log: CallbackLog

    ghost function State(): EngineState
      reads this
    {
      EngineState(props.frames, props.assetsLoaded, props.tr1, props.tr2,
                  cursor.mode, cursor.gfi, cursor.fd, sets.queue, sets.isSetPlaying, sets.overlays, sets.states,
                  cursor.shouldReturnToFrame, cursor.chosenTransition, cursor.chosenTransitionMode,
                  cursor.userInputActive, sets.globalSetId, sets.hasAnimationCompleted,
                  log.arming, log.chunkStarts, log.completions)
    }

    ghost predicate Valid()
      reads this
    {
      EngineModel.Valid(State())
    }

    /** Mounting: every ref at its initial value, transition points from the agent. */
    constructor(frameCounts: FrameCounts, loaded: bool, agent: Option<Agent>)
      ensures State() == Initial(frameCounts, loaded, Display(agent).tr1, Display(agent).tr2)
      ensures overlayImages == map[]
      ensures Valid()
    {
      var config := Display(agent);
      props := Props(frameCounts, loaded, config.tr1, config.tr2);
      cursor := CursorRefs(Idle, 0, 1, false, None, None, false);
      sets := SetRefs([], false, [], [], 0, false);
      overlayImages := map[];
      log := CallbackLog(0, [], []);
      InitialValid(frameCounts, loaded, config.tr1, config.tr2);
    }

    // -------------------------------------------------------------------
    // Queue
    // -------------------------------------------------------------------

    /**
      `processAnimationData`: install a set's overlays, or give up on an
      unusable set. It is reached only from the dequeue, with the set marked
      playing and no overlays left.
    */
    method ProcessAnimationData(dataArray: Option<seq<Option<Target>>>, chunkIndex: nat, uniqueSetId: int)
      requires Valid() && sets.isSetPlaying && sets.overlays == []
      modifies this
      ensures State() == EngineModel.ProcessAnimationData(old(State()), dataArray, chunkIndex, uniqueSetId)
      ensures overlayImages == old(overlayImages)
      ensures Valid()
    {
      InstallKeepsValid(State(), dataArray, chunkIndex, uniqueSetId);
      var targetSet := InstallableTarget(dataArray);
      if targetSet.None? {
        sets := sets.(isSetPlaying := false);
        return;
      }
      var target := targetSet.value;
      var newOverlays := BuildOverlays(target.sections.value, 0, target.mode, chunkIndex, uniqueSetId);
      sets := sets.(overlays := newOverlays, states := FreshStates(|newOverlays|), hasAnimationCompleted := false);
      log := log.(arming := log.arming + 1);
    }

    /** `processNextAnimationSet`: dequeue the head set and install it, when nothing is playing. */
    method ProcessNextAnimationSet()
      requires Valid()
      modifies this
      ensures State() == EngineModel.ProcessNextAnimationSet(old(State()))
      ensures overlayImages == old(overlayImages)
      ensures Valid()
    {
      DequeueKeepsValid(State());
      if !props.assetsLoaded || sets.isSetPlaying || |sets.queue| == 0 {
        return;
      }
      var nextSet := sets.queue[0];
      sets := sets.(isSetPlaying := true, queue := sets.queue[1..]);
      if nextSet.dataArray.None? || |nextSet.dataArray.value| == 0 {
        sets := sets.(isSetPlaying := false);
        if |sets.queue| == 0 {
          cursor := cursor.(mode := Idle);
        }
        return;
      }
      if cursor.mode == Talking && nextSet.chunkIndex == 0 {
        cursor := cursor.(gfi := 0);
      }
      ProcessAnimationData(nextSet.dataArray, nextSet.chunkIndex, nextSet.uniqueSetId);
    }

    /** Entry point for a streamed animation set. */
    method HandleIncomingAnimationData(dataArray: Option<seq<Option<Target>>>, chunkIndex: nat, forcedSetId: Option<int>)
      requires Valid()
      modifies this
      ensures State() == EngineModel.HandleIncomingAnimationData(old(State()), dataArray, chunkIndex, forcedSetId)
      ensures overlayImages == old(overlayImages)
      ensures Valid()
    {
      ghost var s0 := State();
      var uniqueSetId;
      if forcedSetId.Some? {
        uniqueSetId := forcedSetId.value;
      } else {
        uniqueSetId := sets.globalSetId;
        sets := sets.(globalSetId := sets.globalSetId + 1);
      }
      sets := sets.(queue := sets.queue + [AnimationSet(dataArray, chunkIndex, uniqueSetId)]);
      assert State() == Enqueue(s0, dataArray, chunkIndex, forcedSetId);
      if props.assetsLoaded && !sets.isSetPlaying && cursor.mode == Idle {
        ProcessNextAnimationSet();
      }
      EnqueueKeepsValid(s0, dataArray, chunkIndex, forcedSetId);
    }

    // -------------------------------------------------------------------
    // Props and the imperative handle
    // -------------------------------------------------------------------

    /** The four base-frame props changed (a missing list counts as empty). */
    method SetFrameLists(counts: FrameCounts)
      requires Valid()
      modifies this
      ensures State() == old(State()).(frames := counts)
      ensures overlayImages == old(overlayImages)
      ensures Valid()
    {
      props := props.(frames := counts);
    }

    /** `setBaseFrames`: an empty list is ignored. */
    method SetBaseFrames(count: nat)
      requires Valid()
      modifies this
      ensures count > 0 ==> State() == old(State()).(frames := old(props.frames).(idle := count))
      ensures count == 0 ==> State() == old(State())
      ensures overlayImages == old(overlayImages)
      ensures Valid()
    {
      if count > 0 {
        props := props.(frames := props.frames.(idle := count));
      }
    }

    /** The assets flag prop changed. */
    method SetAssetsLoaded(loaded: bool)
      requires Valid()
      modifies this
      ensures State() == EngineModel.SetAssetsLoaded(old(State()), loaded)
      ensures overlayImages == old(overlayImages)
      ensures Valid()
    {
      ghost var s0 := State();
      props := props.(assetsLoaded := loaded);
      if loaded && !sets.isSetPlaying {
        ProcessNextAnimationSet();
      }
      SetAssetsLoadedKeepsValid(s0, loaded);
    }

    /** The agent prop changed: only the transition points matter to the engine. */
    method SetAgent(agent: Option<Agent>)
      requires Valid()
      modifies this
      ensures State() == old(State()).(tr1 := Display(agent).tr1, tr2 := Display(agent).tr2)
      ensures overlayImages == old(overlayImages)
      ensures Valid()
    {
      var config := Display(agent);
      props := props.(tr1 := config.tr1, tr2 := config.tr2);
    }

    /** `setUserInputSentToBackend`: idle ping-pong narrows to the sub-range until an overlay starts. */
    method SetUserInputSentToBackend()
      requires Valid()
      modifies this
      ensures State() == old(State()).(userInputActive := true)
      ensures overlayImages == old(overlayImages)
      ensures Valid()
    {
      cursor := cursor.(userInputActive := true);
    }

    /** `handleIncomingFrameImage`: caches a complete overlay frame image under its key. */
    method HandleIncomingFrameImage(f: FrameImage, chunkIndex: nat)
      requires Valid()
      modifies this
      ensures overlayImages == CacheFrameImage(old(overlayImages), f, chunkIndex)
      ensures State() == old(State())
      ensures Valid()
    {
      if f.sectionIndex.None? || f.matchedSpriteFrameNumber.None? || f.frameIndex.None? || f.imageData == "" {
        return;
      }
      var key := OverlayKey(KeyParts(chunkIndex, f.sectionIndex.value, f.matchedSpriteFrameNumber.value, f.frameIndex.value));
      var imageSrc;
      if StartsWith(f.imageData, DataImagePrefix) {
        imageSrc := f.imageData;
      } else {
        imageSrc := JpegPrefix + f.imageData;
      }
      overlayImages := overlayImages[key := imageSrc];
    }

    // -------------------------------------------------------------------
    // The draw loop
    // -------------------------------------------------------------------

    /** Length of the base frame list drawn this tick. */
    method CurrentFramesCount() returns (n: nat)
      ensures n == FramesCount(State())
    {
      var frames := props.frames;
      if cursor.mode == Talking && frames.talking > 0 {
        n := frames.talking;
      } else if cursor.mode == Transition {
        if cursor.chosenTransitionMode == Some(Transition1) {
          n := frames.transition1;
        } else if cursor.chosenTransitionMode == Some(Transition2) {
          n := frames.transition2;
        } else {
          n := frames.idle;
        }
      } else {
        n := frames.idle;
      }
    }

    /**
      The overlay `forEach` of the draw loop: each overlay takes one step
      against the tick-start cursor; an overlay that starts switches the
      mode to talking and ends the user-input sub-range.
    */
    method AdvanceOverlays()
      requires |sets.overlays| == |sets.states|
      modifies this
      ensures State() == EngineModel.AdvanceOverlays(old(State()))
      ensures overlayImages == old(overlayImages)
    {
      ghost var s0 := State();
      var newStates, started, events := StepEach(sets.overlays, sets.states, Cursor(cursor.gfi, cursor.fd));
      if started {
        cursor := cursor.(mode := Talking, userInputActive := false);
      }
      sets := sets.(states := newStates);
      log := log.(chunkStarts := log.chunkStarts + events);
      assert State() == s0.(states := newStates,
                            mode := if started then Talking else s0.mode,
                            userInputActive := if started then false else s0.userInputActive,
                            chunkStarts := s0.chunkStarts + events);
    }

    /** The cleanup loop: completed overlays are dropped. */
    method PruneOverlays()
      requires |sets.overlays| == |sets.states|
      modifies this
      ensures State() == Prune(old(State()))
      ensures overlayImages == old(overlayImages)
    {
      var a := ActiveOf(sets.overlays, sets.states);
      sets := sets.(overlays := a.overlays, states := a.states);
    }

    /** The set is over when no overlay is left: play the next one or start the return. */
    method HandOff()
      requires Valid()
      modifies this
      ensures State() == EngineModel.HandOff(old(State()))
      ensures overlayImages == old(overlayImages)
      ensures Valid()
    {
      HandOffKeepsValid(State());
      if |sets.overlays| == 0 && sets.isSetPlaying {
        sets := sets.(isSetPlaying := false);
        if |sets.queue| > 0 {
          ProcessNextAnimationSet();
        } else {
          cursor := cursor.(shouldReturnToFrame := true);
        }
      }
    }

    /** After the return or a transition ends, a queued set is played at once. */
    method DequeueIfPending()
      requires Valid()
      modifies this
      ensures State() == EngineModel.DequeueIfPending(old(State()))
      ensures overlayImages == old(overlayImages)
      ensures Valid()
    {
      DequeueKeepsValid(State());
      if |sets.queue| > 0 {
        ProcessNextAnimationSet();
      }
    }

    /** The first tick of a return picks the nearer transition point. */
    method ChooseTransition()
      requires Valid()
      modifies this
      ensures State() == EngineModel.ChooseTransition(old(State()))
      ensures overlayImages == old(overlayImages)
      ensures Valid()
    {
      ChooseKeepsValid(State());
      if cursor.chosenTransition.None? {
        var nearest := NearestTransitionPoint(cursor.gfi, props.tr1, props.tr2);
        cursor := cursor.(chosenTransition := Some(nearest),
                          chosenTransitionMode := Some(if nearest == props.tr1 then Transition1 else Transition2));
      }
    }

    /** On reaching the chosen point: its transition frames from frame 0, or idle without them. */
    method Arrive()
      requires Valid() && cursor.chosenTransition.Some?
      modifies this
      ensures State() == EngineModel.Arrive(old(State()))
      ensures overlayImages == old(overlayImages)
      ensures Valid()
    {
      ArriveKeepsValid(State());
      var count := if cursor.chosenTransitionMode == Some(Transition1) then props.frames.transition1 else props.frames.transition2;
      if count > 0 {
        cursor := cursor.(shouldReturnToFrame := false, mode := Transition, gfi := 0, fd := 1);
      } else {
        cursor := cursor.(shouldReturnToFrame := false, mode := Idle, gfi := 0);
      }
      DequeueIfPending();
    }

    /** Walk one frame towards the chosen transition point, or arrive. */
    method ReturnToFrame()
      requires Valid() && cursor.chosenTransition.Some?
      modifies this
      ensures State() == EngineModel.ReturnToFrame(old(State()))
      ensures overlayImages == old(overlayImages)
      ensures Valid()
    {
      ReturnToFrameKeepsValid(State());
      var chosen := cursor.chosenTransition.value;
      if cursor.gfi > chosen {
        cursor := cursor.(gfi := cursor.gfi - 1);
      } else if cursor.gfi < chosen {
        cursor := cursor.(gfi := cursor.gfi + 1);
      } else {
        Arrive();
      }
    }

    /** The transition frames play forward once, then the engine goes idle. */
    method StepTransition()
      requires Valid()
      modifies this
      ensures State() == TransitionStep(old(State()))
      ensures overlayImages == old(overlayImages)
      ensures Valid()
    {
      var tCount: int := props.frames.transition1;
      if cursor.chosenTransitionMode == Some(Transition2) {
        tCount := props.frames.transition2;
      }
      if cursor.gfi < tCount - 1 {
        cursor := cursor.(gfi := cursor.gfi + 1);
      } else {
        ghost var s0 := State();
        EndTransitionKeepsValid(s0);
        cursor := cursor.(mode := Idle, gfi := 0, fd := 1, chosenTransition := None, chosenTransitionMode := None);
        assert State() == s0.(mode := Idle, gfi := 0, fd := 1, chosenTransition := None, chosenTransitionMode := None);
        DequeueIfPending();
      }
    }

    /** Idle ping-pong, inside the user-input sub-range when active, then the completion report. */
    method StepIdle(framesCount: nat)
      requires Valid()
      modifies this
      ensures State() == IdleStep(old(State()), framesCount)
      ensures overlayImages == old(overlayImages)
      ensures Valid()
    {
      IdleStepKeepsValid(State(), framesCount);
      var c := IdleCursor(Cursor(cursor.gfi, cursor.fd), framesCount, cursor.userInputActive, UserInputMinFrame, UserInputMaxFrame);
      cursor := cursor.(gfi := c.gfi, fd := c.fd);
      if |sets.queue| == 0 && |sets.overlays| == 0 && !sets.hasAnimationCompleted {
        sets := sets.(hasAnimationCompleted := true);
        log := log.(completions := log.completions + [log.arming]);
      }
    }

    /** Talking ping-pong over the whole list, one frame per tick. */
    method StepTalking(framesCount: nat)
      requires Valid()
      modifies this
      ensures var c := TalkingCursor(Cursor(old(cursor.gfi), old(cursor.fd)), framesCount);
        State() == old(State()).(gfi := c.gfi, fd := c.fd)
      ensures overlayImages == old(overlayImages)
      ensures Valid()
    {
      var c := TalkingCursor(Cursor(cursor.gfi, cursor.fd), framesCount);
      cursor := cursor.(gfi := c.gfi, fd := c.fd);
    }

    /** Phase 6: the cursor moves according to the current mode. */
    method StepCursor(framesCount: nat)
      requires Valid()
      modifies this
      ensures State() == CursorStep(old(State()), framesCount)
      ensures overlayImages == old(overlayImages)
      ensures Valid()
    {
      CursorStepKeepsValid(State(), framesCount);
      if cursor.mode == Talking && cursor.shouldReturnToFrame {
        ChooseTransition();
        ReturnToFrame();
      } else if cursor.mode == Transition {
        StepTransition();
      } else if cursor.mode == Idle {
        StepIdle(framesCount);
      } else {
        StepTalking(framesCount);
      }
    }

    /** One draw-loop tick (the drawing itself left out). */
    method Tick()
      requires Valid()
      modifies this
      ensures State() == EngineModel.Tick(old(State()))
      ensures overlayImages == old(overlayImages)
      ensures Valid()
    {
      ghost var s0 := State();
      var framesCount := CurrentFramesCount();
      AdvanceOverlays();
      AdvanceKeepsValid(s0);
      PruneOverlays();
      PruneRestoresValid(EngineModel.AdvanceOverlays(s0));
      HandOff();
      StepCursor(framesCount);
    }
  }

  /**
    The loop of the overlay `forEach`: steps every overlay in list order,
    collecting the new state of each and the chunk-start callbacks fired.
  */
  method StepEach(overlays: seq<Overlay>, states: seq<PlaybackState>, c: Cursor)
    returns (newStates: seq<PlaybackState>, started: bool, events: seq<ChunkStart>)
    requires |overlays| == |states|
    ensures StepAllResult(newStates, started, events) == StepAll(overlays, states, c)
  {
    newStates, started, events := [], false, [];
    var i := 0;
    while i < |overlays|
      invariant 0 <= i <= |overlays|
      invariant StepAllResult(newStates, started, events) == StepAll(overlays[..i], states[..i], c)
    {
      var anim := overlays[i];
      StepAllExtend(overlays, states, c, i);
      var step := StepOverlay(anim, states[i], c);
      if step.audio {
        events := events + [ChunkStart(anim.uniqueSetId, anim.chunkIndex)];
      }
      newStates := newStates + [step.state];
      started := started || step.started;
      i := i + 1;
    }
    assert overlays[..i] == overlays && states[..i] == states;
  }

  /** The cleanup loop: collects the overlays that are not done, with their states, in order. */
  method ActiveOf(overlays: seq<Overlay>, states: seq<PlaybackState>) returns (a: Active)
    requires |overlays| == |states|
    ensures a == KeepActive(overlays, states)
  {
    var activeOverlays: seq<Overlay> := [];
    var activeStates: seq<PlaybackState> := [];
    var i := 0;
    while i < |overlays|
      invariant 0 <= i <= |overlays|
      invariant KeepActive(overlays[..i], states[..i]) == Active(activeOverlays, activeStates)
    {
      KeepActiveExtend(overlays, states, i);
      if !states[i].done {
        activeOverlays := activeOverlays + [overlays[i]];
        activeStates := activeStates + [states[i]];
      }
      i := i + 1;
    }
    assert overlays[..i] == overlays && states[..i] == states;
    a := Active(activeOverlays, activeStates);
  }
}
