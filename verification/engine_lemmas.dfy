/**
  What the engine keeps true from tick to tick, and what a run of ticks
  does in the quiet idle, return-to-frame, transition and stalled talking
  situations.
*/
module EngineLemmas {
  import opened Wrappers
  import opened Overlays
  import opened CursorSteps
  import opened EngineModel

  // ---------------------------------------------------------------------
  // The invariant is kept by every operation
  // ---------------------------------------------------------------------

  lemma InstallKeepsValid(s: EngineState, dataArray: Option<seq<Option<Target>>>, chunkIndex: nat, uniqueSetId: int)
    requires Valid(s) && s.isSetPlaying && s.overlays == []
    ensures Valid(ProcessAnimationData(s, dataArray, chunkIndex, uniqueSetId))
  {
    var r := ProcessAnimationData(s, dataArray, chunkIndex, uniqueSetId);
    var target := InstallableTarget(dataArray);
    if target.Some? {
      var t := target.value;
      InstallBuildsOverlays(s, dataArray, chunkIndex, uniqueSetId);
      forall k | 0 <= k < |r.states|
        ensures Live(r.overlays[k], r.states[k])
      {
        var sec := r.overlays[k].sectionIndex;
        assert t.sections.value[sec] != [];
        assert |r.overlays[k].frames| == |t.sections.value[sec]|;
      }
    }
  }

  lemma DequeueKeepsValid(s: EngineState)
    requires Valid(s)
    ensures Valid(ProcessNextAnimationSet(s))
  {
    if CanDequeue(s) {
      var next := s.queue[0];
      var s1 := s.(isSetPlaying := true, queue := s.queue[1..]);
      if !(next.dataArray.None? || next.dataArray.value == []) {
        var s2 := if s1.mode == Talking && next.chunkIndex == 0 then s1.(gfi := 0) else s1;
        InstallKeepsValid(s2, next.dataArray, next.chunkIndex, next.uniqueSetId);
      }
    }
  }

  lemma EnqueueKeepsValid(s: EngineState, dataArray: Option<seq<Option<Target>>>, chunkIndex: nat, forcedSetId: Option<int>)
    requires Valid(s)
    ensures Valid(HandleIncomingAnimationData(s, dataArray, chunkIndex, forcedSetId))
  {
    var s1 := Enqueue(s, dataArray, chunkIndex, forcedSetId);
    assert Valid(s1);
    if s.assetsLoaded && !s.isSetPlaying && s.mode == Idle {
      DequeueKeepsValid(s1);
    }
  }

  lemma SetAssetsLoadedKeepsValid(s: EngineState, loaded: bool)
    requires Valid(s)
    ensures Valid(SetAssetsLoaded(s, loaded))
  {
    DequeueKeepsValid(s.(assetsLoaded := loaded));
  }

  /** Between the overlay step and the cleanup, an overlay may be done; every other one is live. */
  ghost predicate ValidBeforePrune(s: EngineState) {
    && IsDirection(s.fd)
    && |s.overlays| == |s.states|
    && (!s.isSetPlaying ==> s.overlays == [])
    && (forall k :: 0 <= k < |s.states| ==> s.states[k].done || Live(s.overlays[k], s.states[k]))
    && ChoiceConsistent(s.mode, s.chosenTransition, s.chosenTransitionMode)
    && CompletionLog(s.completions, s.arming, s.hasAnimationCompleted)
  }

  lemma AdvanceKeepsValid(s: EngineState)
    requires Valid(s)
    ensures ValidBeforePrune(AdvanceOverlays(s))
  {
    var r := AdvanceOverlays(s);
    StepAllSpec(s.overlays, s.states, Cursor(s.gfi, s.fd));
    forall k | 0 <= k < |r.states|
      ensures r.states[k].done || Live(r.overlays[k], r.states[k])
    {
      StepKeepsLive(s.overlays[k], s.states[k], Cursor(s.gfi, s.fd));
    }
  }

  lemma PruneRestoresValid(s: EngineState)
    requires ValidBeforePrune(s)
    ensures Valid(Prune(s))
  {
    KeepActiveAllLive(s.overlays, s.states);
    if !s.isSetPlaying {
      KeepActiveNoneDone(s.overlays, s.states);
    }
  }

  lemma HandOffKeepsValid(s: EngineState)
    requires Valid(s)
    ensures Valid(HandOff(s))
  {
    if s.overlays == [] && s.isSetPlaying && s.queue != [] {
      DequeueKeepsValid(s.(isSetPlaying := false));
    }
  }

  lemma ArriveKeepsValid(s: EngineState)
    requires Valid(s) && s.chosenTransition.Some?
    ensures Valid(Arrive(s))
  {
    var count := if s.chosenTransitionMode == Some(Transition1) then s.frames.transition1 else s.frames.transition2;
    var s2 := if count > 0 then s.(shouldReturnToFrame := false, mode := Transition, gfi := 0, fd := 1)
              else s.(shouldReturnToFrame := false, mode := Idle, gfi := 0);
    assert Valid(s2);
    DequeueKeepsValid(s2);
  }

  lemma ChooseKeepsValid(s: EngineState)
    requires Valid(s)
    ensures Valid(ChooseTransition(s))
  {
  }

  lemma ReturnToFrameKeepsValid(s: EngineState)
    requires Valid(s) && s.chosenTransition.Some?
    ensures Valid(ReturnToFrame(s))
  {
    var p := s.chosenTransition.value;
    if s.gfi > p {
      assert ReturnToFrame(s) == s.(gfi := s.gfi - 1);
    } else if s.gfi < p {
      assert ReturnToFrame(s) == s.(gfi := s.gfi + 1);
    } else {
      ArriveKeepsValid(s);
    }
  }

  /** The end of a transition: idle at frame 0 going forward, with the choice cleared. */
  lemma EndTransitionKeepsValid(s: EngineState)
    requires Valid(s)
    ensures Valid(s.(mode := Idle, gfi := 0, fd := 1, chosenTransition := None, chosenTransitionMode := None))
  {
  }

  lemma TransitionStepKeepsValid(s: EngineState)
    requires Valid(s)
    ensures Valid(TransitionStep(s))
  {
    EndTransitionKeepsValid(s);
    DequeueKeepsValid(s.(mode := Idle, gfi := 0, fd := 1, chosenTransition := None, chosenTransitionMode := None));
  }

  lemma IdleStepKeepsValid(s: EngineState, framesCount: nat)
    requires Valid(s)
    ensures Valid(IdleStep(s, framesCount))
  {
    var r := IdleStep(s, framesCount);
    if s.queue == [] && s.overlays == [] && !s.hasAnimationCompleted {
      var c := s.completions;
      assert |c| > 0 ==> c[|c| - 1] < s.arming;
      assert r.completions == c + [s.arming];
    }
  }

  lemma CursorStepKeepsValid(s: EngineState, framesCount: nat)
    requires Valid(s)
    ensures Valid(CursorStep(s, framesCount))
  {
    if s.mode == Talking && s.shouldReturnToFrame {
      ChooseKeepsValid(s);
      ReturnToFrameKeepsValid(ChooseTransition(s));
    } else if s.mode == Transition {
      TransitionStepKeepsValid(s);
    } else if s.mode == Idle {
      IdleStepKeepsValid(s, framesCount);
    }
  }

  /** Every tick keeps the engine invariant. */
  lemma TickKeepsValid(s: EngineState)
    requires Valid(s)
    ensures Valid(Tick(s))
  {
    AdvanceKeepsValid(s);
    var a := AdvanceOverlays(s);
    PruneRestoresValid(a);
    HandOffKeepsValid(Prune(a));
    CursorStepKeepsValid(HandOff(Prune(a)), FramesCount(s));
  }

  /** `k` ticks in a row. */
  function TickN(s: EngineState, k: nat): (r: EngineState)
    requires Valid(s)
    ensures Valid(r)
    decreases k
  {
    if k == 0 then s
    else
      TickKeepsValid(s);
      TickN(Tick(s), k - 1)
  }

  /**
    Idle completion is reported at most once per installed set, whatever
    sequence of operations runs: distinct entries of the completion log of
    any valid state belong to distinct arming epochs.
  */
  lemma CompletionAtMostOncePerSet(s: EngineState, i: nat, j: nat)
    requires Valid(s) && i < j < |s.completions|
    ensures s.completions[i] != s.completions[j]
  {
  }

  // ---------------------------------------------------------------------
  // Quiet idle: the cursor ping-pongs, completion is reported once
  // ---------------------------------------------------------------------

  /** Idle with nothing queued, nothing playing and no user-input sub-range. */
  predicate QuietIdle(s: EngineState) {
    s.mode == Idle && s.queue == [] && s.overlays == [] && s.states == [] && !s.isSetPlaying && !s.userInputActive
  }

  lemma {:induction false} QuietIdleTick(s: EngineState)
    requires Valid(s) && QuietIdle(s)
    ensures var c := IdleCursor(Cursor(s.gfi, s.fd), s.frames.idle, false, 0, 0);
      Tick(s) == s.(gfi := c.gfi, fd := c.fd, hasAnimationCompleted := true,
                    completions := if s.hasAnimationCompleted then s.completions else s.completions + [s.arming])
  {
    assert AdvanceOverlays(s) == s;
    KeepActiveNoneDone(s.overlays, s.states);
    assert Prune(s) == s;
    assert HandOff(s) == s;
  }

  lemma {:induction false} QuietIdleRun(s: EngineState, k: nat)
    requires Valid(s) && QuietIdle(s)
    ensures var c := IdleRun(Cursor(s.gfi, s.fd), s.frames.idle, k);
      TickN(s, k) == if k == 0 then s
        else s.(gfi := c.gfi, fd := c.fd, hasAnimationCompleted := true,
                completions := if s.hasAnimationCompleted then s.completions else s.completions + [s.arming])
    decreases k
  {
    if k > 0 {
      QuietIdleTick(s);
      TickKeepsValid(s);
      var t := Tick(s);
      QuietIdleRun(t, k - 1);
      assert TickN(s, k) == TickN(t, k - 1);
    }
  }

  /**
    With N >= 2 idle frames and nothing to play, 2(N-1) ticks bring the
    cursor from frame 0 going forward back to the same place, and the idle
    completion has been reported exactly once over the whole run.
  */
  lemma QuietIdleRoundTrip(s: EngineState)
    requires Valid(s) && QuietIdle(s) && s.frames.idle >= 2
    requires s.gfi == 0 && s.fd == 1 && !s.hasAnimationCompleted
    ensures var r := TickN(s, 2 * (s.frames.idle - 1));
      && r.gfi == 0 && r.fd == 1
      && r.completions == s.completions + [s.arming]
  {
    QuietIdleRun(s, 2 * (s.frames.idle - 1));
    IdleRoundTrip(s.frames.idle);
  }

  // ---------------------------------------------------------------------
  // Talking ends: back to a transition point, through the transition, idle
  // ---------------------------------------------------------------------

  /** Talking with the set over: no overlays, nothing playing, return requested. */
  predicate Returning(s: EngineState) {
    s.mode == Talking && s.shouldReturnToFrame && s.overlays == [] && s.states == [] && !s.isSetPlaying
  }

  /** The point the cursor returns to: the one already chosen, else the nearer of the two. */
  function ReturnPoint(s: EngineState): (p: int)
    ensures s.chosenTransition.None? ==> p == NearestTransitionPoint(s.gfi, s.tr1, s.tr2)
  {
    if s.chosenTransition.Some? then s.chosenTransition.value else NearestTransitionPoint(s.gfi, s.tr1, s.tr2)
  }

  lemma QuietTickIsCursorStep(s: EngineState)
    requires Valid(s) && s.overlays == [] && s.states == [] && !s.isSetPlaying
    ensures Tick(s) == CursorStep(s, FramesCount(s))
  {
    assert AdvanceOverlays(s) == s;
    KeepActiveNoneDone(s.overlays, s.states);
    assert Prune(s) == s;
  }

  /** Away from the return point, the cursor moves one frame towards it. */
  lemma ReturnWalkTowards(s: EngineState)
    requires s.chosenTransition.Some? && s.gfi != s.chosenTransition.value
    ensures var r := ReturnToFrame(s); var p := s.chosenTransition.value;
      r == s.(gfi := r.gfi) && Abs(r.gfi - p) + 1 == Abs(s.gfi - p)
  {
    var p := s.chosenTransition.value;
    if s.gfi > p {
      assert ReturnToFrame(s) == s.(gfi := s.gfi - 1);
    } else {
      assert ReturnToFrame(s) == s.(gfi := s.gfi + 1);
    }
  }

  /** At the return point, the chosen transition starts at frame 0 (or idle, without its frames). */
  lemma ReturnArrives(s: EngineState)
    requires s.chosenTransition.Some? && s.gfi == s.chosenTransition.value && s.queue == []
    ensures var r := ReturnToFrame(s);
      var count := if s.chosenTransitionMode == Some(Transition1) then s.frames.transition1 else s.frames.transition2;
      && r.chosenTransition == s.chosenTransition && r.chosenTransitionMode == s.chosenTransitionMode
      && !r.shouldReturnToFrame && r.gfi == 0
      && (count > 0 ==> r.mode == Transition && r.fd == 1)
      && (count == 0 ==> r.mode == Idle)
  {
  }

  /** Choosing the return point touches only the choice, and the point chosen is the return point. */
  lemma ChooseKeepsOthers(s: EngineState)
    ensures var s1 := ChooseTransition(s);
      && s1.chosenTransition == Some(ReturnPoint(s))
      && s1 == s.(chosenTransition := s1.chosenTransition, chosenTransitionMode := s1.chosenTransitionMode)
  {
  }

  /** The cursor phase of a returning tick, on its own. */
  lemma ReturnWalk(s: EngineState)
    requires s.queue == []
    ensures var r := ReturnToFrame(ChooseTransition(s)); var p := ReturnPoint(s);
      && r.chosenTransition == Some(p)
      && (s.gfi != p ==> r.mode == s.mode && r.shouldReturnToFrame == s.shouldReturnToFrame && Abs(r.gfi - p) + 1 == Abs(s.gfi - p))
      && (s.gfi == p ==>
            var count := if r.chosenTransitionMode == Some(Transition1) then s.frames.transition1 else s.frames.transition2;
            && !r.shouldReturnToFrame && r.gfi == 0
            && (count > 0 ==> r.mode == Transition && r.fd == 1)
            && (count == 0 ==> r.mode == Idle))
  {
    var s1 := ChooseTransition(s);
    ChooseKeepsOthers(s);
    if s.gfi == ReturnPoint(s) {
      ReturnArrives(s1);
    } else {
      ReturnWalkTowards(s1);
    }
  }

  /**
    While returning, each tick moves the cursor one frame closer to the
    return point; on arrival the engine enters the chosen transition at
    frame 0 going forward, or goes idle at frame 0 when that transition has
    no frames.
  */
  lemma ReturnStep(s: EngineState)
    requires Valid(s) && Returning(s) && s.queue == []
    ensures var r := Tick(s); var p := ReturnPoint(s);
      && r.chosenTransition == Some(p)
      && (s.gfi != p ==> r.mode == Talking && r.shouldReturnToFrame && Abs(r.gfi - p) + 1 == Abs(s.gfi - p))
      && (s.gfi == p ==>
            var count := if r.chosenTransitionMode == Some(Transition1) then s.frames.transition1 else s.frames.transition2;
            && !r.shouldReturnToFrame && r.gfi == 0
            && (count > 0 ==> r.mode == Transition && r.fd == 1)
            && (count == 0 ==> r.mode == Idle))
  {
    QuietTickIsCursorStep(s);
    ReturnWalk(s);
  }

  /**
    In the transition, each tick advances one frame; after the last
    transition frame the engine is idle at frame 0 going forward, with the
    chosen transition cleared.
  */
  lemma TransitionStepLemma(s: EngineState)
    requires Valid(s) && s.mode == Transition && s.overlays == [] && s.states == [] && !s.isSetPlaying && s.queue == []
    ensures var r := Tick(s);
      var count := if s.chosenTransitionMode == Some(Transition2) then s.frames.transition2 else s.frames.transition1;
      && (s.gfi < count - 1 ==> r == s.(gfi := s.gfi + 1))
      && (s.gfi >= count - 1 ==> r == s.(mode := Idle, gfi := 0, fd := 1, chosenTransition := None, chosenTransitionMode := None))
  {
    QuietTickIsCursorStep(s);
  }

  // ---------------------------------------------------------------------
  // The queue
  // ---------------------------------------------------------------------

  /** A set that cannot be dequeued at once waits at the back of the queue. */
  lemma EnqueueAppends(s: EngineState, dataArray: Option<seq<Option<Target>>>, chunkIndex: nat, forcedSetId: Option<int>)
    requires !(s.assetsLoaded && !s.isSetPlaying && s.mode == Idle)
    ensures var r := HandleIncomingAnimationData(s, dataArray, chunkIndex, forcedSetId);
      && r.queue == s.queue + [AnimationSet(dataArray, chunkIndex, if forcedSetId.Some? then forcedSetId.value else s.globalSetId)]
      && r.overlays == s.overlays && r.states == s.states && r.mode == s.mode && r.gfi == s.gfi
  {
  }

  /**
    Sets leave the queue in arrival order: from a queue holding `a` then
    `b`, one dequeue removes `a`, installs it when it is valid, and leaves
    `b` waiting.
  */
  lemma {:induction false} QueueIsFifo(s: EngineState, a: AnimationSet, b: AnimationSet)
    requires CanDequeue(s.(queue := [a, b]))
    ensures var s1 := ProcessNextAnimationSet(s.(queue := [a, b]));
      && s1.queue == [b]
      && (InstallableTarget(a.dataArray).Some? ==>
            forall k :: 0 <= k < |s1.overlays| ==> s1.overlays[k].uniqueSetId == a.uniqueSetId && s1.overlays[k].chunkIndex == a.chunkIndex)
  {
    var s0 := s.(queue := [a, b]);
    var s1 := ProcessNextAnimationSet(s0);
    if InstallableTarget(a.dataArray).Some? {
      DequeueInstallsHead(s0);
      forall k | 0 <= k < |s1.overlays|
        ensures s1.overlays[k].uniqueSetId == a.uniqueSetId && s1.overlays[k].chunkIndex == a.chunkIndex
      {
        var t := InstallableTarget(a.dataArray).value;
        var sec := s1.overlays[k].sectionIndex;
        assert s1.overlays[k] == MakeOverlay(t.sections.value[sec], sec, t.mode, a.chunkIndex, a.uniqueSetId);
      }
    }
  }

  /** Without a forced id, consecutive sets get consecutive ids from the counter. */
  lemma SetIdsFromCounter(s: EngineState, d1: Option<seq<Option<Target>>>, c1: nat, d2: Option<seq<Option<Target>>>, c2: nat)
    requires !(s.assetsLoaded && !s.isSetPlaying && s.mode == Idle)
    ensures var s1 := HandleIncomingAnimationData(s, d1, c1, None);
      var s2 := HandleIncomingAnimationData(s1, d2, c2, None);
      && s2.queue == s.queue + [AnimationSet(d1, c1, s.globalSetId), AnimationSet(d2, c2, s.globalSetId + 1)]
      && s2.globalSetId == s.globalSetId + 2
  {
    var s1 := HandleIncomingAnimationData(s, d1, c1, None);
    assert s1.queue == s.queue + [AnimationSet(d1, c1, s.globalSetId)];
  }

  // ---------------------------------------------------------------------
  // Stalled talking: a dropped set can leave the engine talking for good
  // ---------------------------------------------------------------------

  /** Talking, with no set playing and no return to a transition point pending. */
  predicate StalledTalking(s: EngineState) {
    s.mode == Talking && !s.isSetPlaying && !s.shouldReturnToFrame
  }

  /**
    The hand-off after a set's last overlay, when the next set in the queue
    cannot be installed: the set is dropped and only the playing flag is
    cleared. The engine is left talking with nothing playing and no return
    requested exactly when the dropped set had a non-empty data array or
    more sets are still queued; otherwise it falls back to idle.
  */
  lemma HandOffCanStall(s: EngineState)
    requires s.overlays == [] && s.isSetPlaying && s.assetsLoaded && s.mode == Talking && !s.shouldReturnToFrame
    requires s.queue != [] && InstallableTarget(s.queue[0].dataArray).None?
    ensures var r := HandOff(s);
      && r.queue == s.queue[1..]
      && (StalledTalking(r) <==> (s.queue[0].dataArray.Some? && s.queue[0].dataArray.value != []) || |s.queue| > 1)
      && (!StalledTalking(r) ==> r.mode == Idle && !r.isSetPlaying)
  {
  }

  /**
    A stalled engine stays stalled: each tick is the talking bounce over the
    frame list, the queue is untouched (the hand-off never fires again) and
    no idle completion is reported.
  */
  lemma {:induction false} StalledTalkingTick(s: EngineState)
    requires Valid(s) && StalledTalking(s)
    ensures var c := TalkingCursor(Cursor(s.gfi, s.fd), FramesCount(s));
      Tick(s) == s.(gfi := c.gfi, fd := c.fd)
  {
    assert s.overlays == [] && s.states == [];
    assert AdvanceOverlays(s) == s;
    assert Prune(s) == s;
    assert HandOff(s) == s;
  }

  /** Any number of ticks leave a stalled engine stalled, with the same queue and completion log. */
  lemma {:induction false} StalledTalkingRun(s: EngineState, k: nat)
    requires Valid(s) && StalledTalking(s)
    ensures var r := TickN(s, k);
      && StalledTalking(r) && r.queue == s.queue && r.completions == s.completions
      && r.overlays == [] && r.frames == s.frames
    decreases k
  {
    if k > 0 {
      StalledTalkingTick(s);
      TickKeepsValid(s);
      var t := Tick(s);
      StalledTalkingRun(t, k - 1);
      assert TickN(s, k) == TickN(t, k - 1);
    }
  }

  /** Sets arriving at a stalled engine are only queued; nothing is dequeued. */
  lemma StalledTalkingQueues(s: EngineState, dataArray: Option<seq<Option<Target>>>, chunkIndex: nat, forcedSetId: Option<int>)
    requires StalledTalking(s)
    ensures var r := HandleIncomingAnimationData(s, dataArray, chunkIndex, forcedSetId);
      && r == Enqueue(s, dataArray, chunkIndex, forcedSetId)
      && StalledTalking(r)
  {
  }

  /**
    A concrete stall: while talking, the hand-off dequeues a set whose data
    array holds no first entry, and the tick ends stalled.
  */
  lemma StallExample(s: EngineState)
    requires Valid(s) && s.mode == Talking && s.isSetPlaying && s.overlays == [] && !s.shouldReturnToFrame
    requires s.assetsLoaded && s.queue == [AnimationSet(Some([None]), 1, 7)]
    ensures var r := Tick(s); StalledTalking(r) && r.queue == []
  {
    assert s.states == [];
    assert Prune(AdvanceOverlays(s)) == AdvanceOverlays(s);
    HandOffCanStall(AdvanceOverlays(s));
  }
}
