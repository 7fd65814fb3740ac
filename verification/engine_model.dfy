/**
  The animation engine of the video canvas as a value: the state its refs
  hold between ticks, and one function per operation (enqueue, dequeue,
  overlay construction, one draw-loop tick split into its phases). The class
  in video_canvas.dfy updates the same state in place and is proved to
  follow these functions.

  Images are opaque here: the engine only needs how many frames each base
  frame list holds. The two host callbacks are recorded as logs:
  `chunkStarts` lists the audio starts in call order, and `completions`
  lists, for each idle completion, the arming epoch in which it fired (the
  epoch grows by one each time a set's overlays are installed, which is
  when the completion flag is re-armed).
*/
module EngineModel {
  import opened Wrappers
  import opened Overlays
  import opened CursorSteps

  datatype Mode = Idle | Talking | Transition

  datatype TransitionKind = Transition1 | Transition2

  /** Lengths of the idle, talking and the two transition base frame lists. */
  datatype FrameCounts = FrameCounts(idle: nat, talking: nat, transition1: nat, transition2: nat)

  /** The first entry of a set's data array: its sections (a non-array section is empty) and set mode. */
  datatype Target = Target(sections: Option<seq<seq<OverlayFrame>>>, mode: string)

  /** A queued animation set; a missing data array is `None`, a missing first entry is `Some([None, ..])`. */
  datatype AnimationSet = AnimationSet(dataArray: Option<seq<Option<Target>>>, chunkIndex: nat, uniqueSetId: int)

  datatype EngineState = EngineState(
    frames: FrameCounts,
    assetsLoaded: bool,
    tr1: int,
    tr2: int,
    mode: Mode,
    gfi: int,
    fd: int,
    queue: seq<AnimationSet>,
    isSetPlaying: bool,
    overlays: seq<Overlay>,
    states: seq<PlaybackState>,
    shouldReturnToFrame: bool,
    chosenTransition: Option<int>,
    chosenTransitionMode: Option<TransitionKind>,
    userInputActive: bool,
    globalSetId: int,
    hasAnimationCompleted: bool,
    arming: nat,
    chunkStarts: seq<ChunkStart>,
    completions: seq<nat>)

  /** The state at mount, for the given frame lists, assets flag and transition points. */
  function Initial(frames: FrameCounts, assetsLoaded: bool, tr1: int, tr2: int): (s: EngineState)
    ensures s.mode == Idle && s.gfi == 0 && s.fd == 1 && s.queue == [] && s.overlays == []
    ensures !s.isSetPlaying && !s.hasAnimationCompleted && s.completions == [] && s.chunkStarts == []
  {
    EngineState(frames, assetsLoaded, tr1, tr2, Idle, 0, 1, [], false, [], [], false, None, None,
                false, 0, false, 0, [], [])
  }

  // ---------------------------------------------------------------------
  // Invariant
  // ---------------------------------------------------------------------

  /**
    The completion log: epochs strictly increase, none is ahead of the
    current epoch, and the flag is set exactly when the current epoch has
    already completed.
  */
  predicate CompletionLog(c: seq<nat>, arming: nat, flag: bool) {
    && (forall i, j :: 0 <= i < j < |c| ==> c[i] < c[j])
    && (forall i :: 0 <= i < |c| ==> c[i] <= arming)
    && (flag <==> |c| > 0 && c[|c| - 1] == arming)
  }

  /** The overlay list and its states: parallel, empty unless a set plays, every pair live. */
  ghost predicate OverlaysLive(overlays: seq<Overlay>, states: seq<PlaybackState>, isSetPlaying: bool) {
    && |overlays| == |states|
    && (!isSetPlaying ==> overlays == [])
    && (forall k :: 0 <= k < |states| ==> Live(overlays[k], states[k]))
  }

  /** A transition point and its frames are chosen together, and a transition always has one. */
  predicate ChoiceConsistent(mode: Mode, chosen: Option<int>, chosenMode: Option<TransitionKind>) {
    && (mode == Transition ==> chosenMode.Some?)
    && (chosen.Some? <==> chosenMode.Some?)
  }

  ghost predicate Valid(s: EngineState) {
    && IsDirection(s.fd)
    && OverlaysLive(s.overlays, s.states, s.isSetPlaying)
    && ChoiceConsistent(s.mode, s.chosenTransition, s.chosenTransitionMode)
    && CompletionLog(s.completions, s.arming, s.hasAnimationCompleted)
  }

  lemma InitialValid(frames: FrameCounts, assetsLoaded: bool, tr1: int, tr2: int)
    ensures Valid(Initial(frames, assetsLoaded, tr1, tr2))
  {
  }

  // ---------------------------------------------------------------------
  // Installing a set, dequeuing, enqueuing
  // ---------------------------------------------------------------------

  /** Fresh playback states, one per overlay. */
  function FreshStates(n: nat): (r: seq<PlaybackState>)
    ensures |r| == n && forall k :: 0 <= k < n ==> r[k] == Fresh
  {
    seq(n, _ => Fresh)
  }

  /** The first entry of the data array, when the set can be installed at all. */
  function InstallableTarget(dataArray: Option<seq<Option<Target>>>): Option<Target> {
    if dataArray.None? || dataArray.value == [] || dataArray.value[0].None? then None
    else if dataArray.value[0].value.sections.None? || dataArray.value[0].value.sections.value == [] then None
    else dataArray.value[0]
  }

  /**
    `processAnimationData`: an unusable data array (missing, empty, no first
    entry, no sections) only clears the playing flag; otherwise the set's
    overlays replace the current ones with fresh states and the completion
    flag is re-armed.
  */
  function ProcessAnimationData(s: EngineState, dataArray: Option<seq<Option<Target>>>, chunkIndex: nat, uniqueSetId: int): (r: EngineState)
    ensures InstallableTarget(dataArray).None? ==> r == s.(isSetPlaying := false)
    ensures InstallableTarget(dataArray).Some? ==>
      && r.states == FreshStates(|r.overlays|)
      && r == s.(overlays := r.overlays, states := r.states, hasAnimationCompleted := false, arming := s.arming + 1)
  {
    var target := InstallableTarget(dataArray);
    if target.None? then s.(isSetPlaying := false)
    else
      var t := target.value;
      var ov := BuildOverlays(t.sections.value, 0, t.mode, chunkIndex, uniqueSetId);
      s.(overlays := ov, states := FreshStates(|ov|), hasAnimationCompleted := false, arming := s.arming + 1)
  }

  /** An installed set's overlays are exactly those of its non-empty sections, in section order. */
  lemma InstallBuildsOverlays(s: EngineState, dataArray: Option<seq<Option<Target>>>, chunkIndex: nat, uniqueSetId: int)
    requires InstallableTarget(dataArray).Some?
    ensures var t := InstallableTarget(dataArray).value;
      OverlaysFor(ProcessAnimationData(s, dataArray, chunkIndex, uniqueSetId).overlays, t.sections.value, 0, t.mode, chunkIndex, uniqueSetId)
  {
    var t := InstallableTarget(dataArray).value;
    BuildOverlaysSpec(t.sections.value, 0, t.mode, chunkIndex, uniqueSetId);
  }

  predicate CanDequeue(s: EngineState) {
    s.assetsLoaded && !s.isSetPlaying && s.queue != []
  }

  /**
    `processNextAnimationSet`: nothing happens unless assets are loaded, no
    set is playing and the queue is not empty. Otherwise the head of the
    queue is removed; a set without data is dropped (and the mode falls back
    to idle if the queue is now empty); a turn's first chunk arriving while
    talking rewinds the cursor to frame 0; then the set is installed.
  */
  function ProcessNextAnimationSet(s: EngineState): (r: EngineState)
  {
    if !CanDequeue(s) then s
    else
      var next := s.queue[0];
      var s1 := s.(isSetPlaying := true, queue := s.queue[1..]);
      if next.dataArray.None? || next.dataArray.value == [] then
        s1.(isSetPlaying := false, mode := if s1.queue == [] then Idle else s1.mode)
      else
        var s2 := if s1.mode == Talking && next.chunkIndex == 0 then s1.(gfi := 0) else s1;
        ProcessAnimationData(s2, next.dataArray, next.chunkIndex, next.uniqueSetId)
  }

  /**
    A dequeue does nothing unless it can; otherwise it removes the head,
    drops a set without data (falling back to idle when the queue is left
    empty), rewinds the cursor for a turn's first chunk while talking, and
    plays the set iff it is installable, with fresh states and the
    completion flag re-armed.
  */
  lemma DequeueSpec(s: EngineState)
    ensures var r := ProcessNextAnimationSet(s);
      && (!CanDequeue(s) ==> r == s)
      && (CanDequeue(s) ==> r.queue == s.queue[1..])
      && (CanDequeue(s) && (s.queue[0].dataArray.None? || s.queue[0].dataArray.value == []) ==>
            r == s.(queue := s.queue[1..], mode := if |s.queue| == 1 then Idle else s.mode))
      && (CanDequeue(s) && s.queue[0].dataArray.Some? && s.queue[0].dataArray.value != [] ==>
            r.gfi == if s.mode == Talking && s.queue[0].chunkIndex == 0 then 0 else s.gfi)
      && (CanDequeue(s) ==> (r.isSetPlaying <==> InstallableTarget(s.queue[0].dataArray).Some?))
      && (CanDequeue(s) && InstallableTarget(s.queue[0].dataArray).Some? ==>
            r.states == FreshStates(|r.overlays|) && !r.hasAnimationCompleted && r.arming == s.arming + 1)
  {
  }

  /** The set installed by a dequeue is the head of the queue. */
  lemma DequeueInstallsHead(s: EngineState)
    requires CanDequeue(s) && InstallableTarget(s.queue[0].dataArray).Some?
    ensures var head := s.queue[0];
      var t := InstallableTarget(head.dataArray).value;
      OverlaysFor(ProcessNextAnimationSet(s).overlays, t.sections.value, 0, t.mode, head.chunkIndex, head.uniqueSetId)
  {
    var next := s.queue[0];
    var s1 := s.(isSetPlaying := true, queue := s.queue[1..]);
    var s2 := if s1.mode == Talking && next.chunkIndex == 0 then s1.(gfi := 0) else s1;
    InstallBuildsOverlays(s2, next.dataArray, next.chunkIndex, next.uniqueSetId);
  }

  /**
    `handleIncomingAnimationData`: the set gets the forced id when one is
    given, otherwise the next value of the set counter; it is appended to
    the queue, and dequeued at once when assets are loaded, nothing is
    playing and the mode is idle.
  */
  function HandleIncomingAnimationData(s: EngineState, dataArray: Option<seq<Option<Target>>>, chunkIndex: nat, forcedSetId: Option<int>): (r: EngineState)
  {
    var s1 := Enqueue(s, dataArray, chunkIndex, forcedSetId);
    if s1.assetsLoaded && !s1.isSetPlaying && s1.mode == Idle then ProcessNextAnimationSet(s1) else s1
  }

  /** The set, with its id, appended to the queue; the counter advances unless the id was forced. */
  function Enqueue(s: EngineState, dataArray: Option<seq<Option<Target>>>, chunkIndex: nat, forcedSetId: Option<int>): EngineState {
    var id := if forcedSetId.Some? then forcedSetId.value else s.globalSetId;
    s.(queue := s.queue + [AnimationSet(dataArray, chunkIndex, id)],
       globalSetId := if forcedSetId.Some? then s.globalSetId else s.globalSetId + 1)
  }

  /** The assets flag changes; when it becomes (or stays) true and nothing plays, the queue is tried. */
  function SetAssetsLoaded(s: EngineState, loaded: bool): (r: EngineState)
  {
    var s1 := s.(assetsLoaded := loaded);
    if loaded && !s1.isSetPlaying then ProcessNextAnimationSet(s1) else s1
  }

  // ---------------------------------------------------------------------
  // One draw-loop tick
  // ---------------------------------------------------------------------

  /** Length of the base frame list drawn this tick. */
  function FramesCount(s: EngineState): (n: nat)
    ensures s.mode == Idle ==> n == s.frames.idle
    ensures s.mode == Talking ==> n == if s.frames.talking > 0 then s.frames.talking else s.frames.idle
    ensures s.mode == Transition && s.chosenTransitionMode == Some(Transition1) ==> n == s.frames.transition1
    ensures s.mode == Transition && s.chosenTransitionMode == Some(Transition2) ==> n == s.frames.transition2
  {
    if s.mode == Talking && s.frames.talking > 0 then s.frames.talking
    else if s.mode == Transition then
      match s.chosenTransitionMode
      case Some(Transition1) => s.frames.transition1
      case Some(Transition2) => s.frames.transition2
      case None => s.frames.idle
    else s.frames.idle
  }

  /**
    Phase 4 of the tick: every overlay takes its step against the tick-start
    cursor; if any starts, the mode becomes talking and the user-input
    sub-range is dropped; audio starts are reported in list order.
  */
  function AdvanceOverlays(s: EngineState): (r: EngineState)
    requires |s.overlays| == |s.states|
  {
    var st := StepAll(s.overlays, s.states, Cursor(s.gfi, s.fd));
    s.(states := st.states,
       mode := if st.started then Talking else s.mode,
       userInputActive := if st.started then false else s.userInputActive,
       chunkStarts := s.chunkStarts + st.events)
  }

  /** Phase 5a: completed overlays are dropped, the rest keep their order and states. */
  function Prune(s: EngineState): (r: EngineState)
    requires |s.overlays| == |s.states|
  {
    var a := KeepActive(s.overlays, s.states);
    s.(overlays := a.overlays, states := a.states)
  }

  /**
    Phase 5b: when the playing set has no overlays left, it stops; the next
    set is dequeued, or, with an empty queue, the cursor is told to return
    to a transition point.
  */
  function HandOff(s: EngineState): (r: EngineState)
  {
    if s.overlays == [] && s.isSetPlaying then
      var s1 := s.(isSetPlaying := false);
      if s1.queue != [] then ProcessNextAnimationSet(s1) else s1.(shouldReturnToFrame := true)
    else s
  }

  /** Tries the queue if it is not empty (the tail of both transition hand-overs). */
  function DequeueIfPending(s: EngineState): (r: EngineState)
    ensures s.queue == [] ==> r == s
  {
    if s.queue != [] then ProcessNextAnimationSet(s) else s
  }

  /** The first tick of a return picks the nearer transition point and remembers which one it is. */
  function ChooseTransition(s: EngineState): (r: EngineState)
  {
    if s.chosenTransition.None? then
      var n := NearestTransitionPoint(s.gfi, s.tr1, s.tr2);
      s.(chosenTransition := Some(n), chosenTransitionMode := Some(if n == s.tr1 then Transition1 else Transition2))
    else s
  }

  /** On reaching the chosen point: the chosen transition at frame 0, or idle when it has no frames. */
  function Arrive(s: EngineState): (r: EngineState)
  {
    var count := if s.chosenTransitionMode == Some(Transition1) then s.frames.transition1 else s.frames.transition2;
    var s2 := if count > 0 then s.(shouldReturnToFrame := false, mode := Transition, gfi := 0, fd := 1)
              else s.(shouldReturnToFrame := false, mode := Idle, gfi := 0);
    DequeueIfPending(s2)
  }

  /**
    Talking after the last overlay: the cursor walks one frame per tick
    towards the chosen transition point and then arrives.
  */
  function ReturnToFrame(s: EngineState): (r: EngineState)
    requires s.chosenTransition.Some?
  {
    var chosen := s.chosenTransition.value;
    if s.gfi > chosen then s.(gfi := s.gfi - 1)
    else if s.gfi < chosen then s.(gfi := s.gfi + 1)
    else Arrive(s)
  }

  /** Transition frames play forward once; at the last one the engine goes idle at frame 0. */
  function TransitionStep(s: EngineState): (r: EngineState)
  {
    var count := if s.chosenTransitionMode == Some(Transition2) then s.frames.transition2 else s.frames.transition1;
    if s.gfi < count - 1 then s.(gfi := s.gfi + 1)
    else
      DequeueIfPending(s.(mode := Idle, gfi := 0, fd := 1, chosenTransition := None, chosenTransitionMode := None))
  }

  /** Idle: ping-pong (inside the user-input sub-range when active), then report completion once. */
  function IdleStep(s: EngineState, framesCount: nat): (r: EngineState)
  {
    var c := IdleCursor(Cursor(s.gfi, s.fd), framesCount, s.userInputActive, UserInputMinFrame, UserInputMaxFrame);
    var s1 := s.(gfi := c.gfi, fd := c.fd);
    if s.queue == [] && s.overlays == [] && !s.hasAnimationCompleted then
      s1.(hasAnimationCompleted := true, completions := s.completions + [s.arming])
    else s1
  }

  /** Phase 6 of the tick: the cursor moves according to the mode it is in now. */
  function CursorStep(s: EngineState, framesCount: nat): (r: EngineState)
  {
    if s.mode == Talking && s.shouldReturnToFrame then ReturnToFrame(ChooseTransition(s))
    else if s.mode == Transition then TransitionStep(s)
    else if s.mode == Idle then IdleStep(s, framesCount)
    else
      var c := TalkingCursor(Cursor(s.gfi, s.fd), framesCount);
      s.(gfi := c.gfi, fd := c.fd)
  }

  /** One draw-loop tick: the frame count is fixed by the mode at the start of the tick. */
  function Tick(s: EngineState): (r: EngineState)
    requires |s.overlays| == |s.states|
  {
    var n := FramesCount(s);
    CursorStep(HandOff(Prune(AdvanceOverlays(s))), n)
  }
}
