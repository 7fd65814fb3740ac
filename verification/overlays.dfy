/**
  Overlay animations: the mouth/expression sequences built from the sections
  of an animation set, their per-overlay playback state, the per-tick rule
  that starts, advances and completes one overlay, and the pruning of
  completed overlays.
*/
module Overlays {
  import opened Text

  /**
    One overlay frame: the base frame it is aligned to, its mode (after the
    fallback to the set's mode) and its ordinal in the section. Draw
    coordinates and file names are only used for drawing and are left out.
  */
  datatype OverlayFrame = OverlayFrame(matchedSpriteFrameNumber: nat, mode: string, frameIndex: nat)

  datatype Overlay = Overlay(
    mode: string,
    frames: seq<OverlayFrame>,
    sectionIndex: nat,
    chunkIndex: nat,
    uniqueSetId: int)

  datatype PlaybackState = PlaybackState(playing: bool, currentDrawingFrame: nat, done: bool, audioStarted: bool)

  /** The state every overlay starts with. */
  const Fresh := PlaybackState(false, 0, false, false)

  /** The base cursor and direction at the start of a tick. */
  datatype Cursor = Cursor(gfi: int, fd: int)

  // ---------------------------------------------------------------------
  // Construction: one overlay per non-empty section
  // ---------------------------------------------------------------------

  function ResolveFrame(f: OverlayFrame, setMode: string): OverlayFrame {
    f.(mode := Or(f.mode, setMode))
  }

  /** The overlay built from one non-empty section (the `map` callback of `processAnimationData`). */
  function MakeOverlay(section: seq<OverlayFrame>, sectionIndex: nat, setMode: string, chunkIndex: nat, uniqueSetId: int): (o: Overlay)
    requires section != []
    ensures |o.frames| == |section| && o.sectionIndex == sectionIndex
    ensures o.chunkIndex == chunkIndex && o.uniqueSetId == uniqueSetId
  {
    var frames := seq(|section|, k requires 0 <= k < |section| => ResolveFrame(section[k], setMode));
    Overlay(Or(frames[0].mode, setMode), frames, sectionIndex, chunkIndex, uniqueSetId)
  }

  /**
    Each overlay frame keeps its section frame's base-frame number and
    ordinal; a frame without a mode takes the set's mode, and the overlay's
    mode is its first frame's.
  */
  lemma MakeOverlayFrames(section: seq<OverlayFrame>, sectionIndex: nat, setMode: string, chunkIndex: nat, uniqueSetId: int)
    requires section != []
    ensures var o := MakeOverlay(section, sectionIndex, setMode, chunkIndex, uniqueSetId);
      && (forall k :: 0 <= k < |section| ==>
            && o.frames[k].matchedSpriteFrameNumber == section[k].matchedSpriteFrameNumber
            && o.frames[k].frameIndex == section[k].frameIndex
            && o.frames[k].mode == (if section[k].mode != "" then section[k].mode else setMode))
      && o.mode == o.frames[0].mode
  {
  }

  /** Each overlay comes from a non-empty section at index `from` or later, built from that section. */
  ghost predicate BuiltFromSections(overlays: seq<Overlay>, sections: seq<seq<OverlayFrame>>, from: nat,
                                    setMode: string, chunkIndex: nat, uniqueSetId: int)
  {
    forall k :: 0 <= k < |overlays| ==>
      && from <= overlays[k].sectionIndex < |sections|
      && sections[overlays[k].sectionIndex] != []
      && overlays[k] == MakeOverlay(sections[overlays[k].sectionIndex], overlays[k].sectionIndex, setMode, chunkIndex, uniqueSetId)
  }

  /** The overlays are in strictly increasing section order. */
  ghost predicate InSectionOrder(overlays: seq<Overlay>) {
    forall k, l :: 0 <= k < l < |overlays| ==> overlays[k].sectionIndex < overlays[l].sectionIndex
  }

  /** Every non-empty section at index `from` or later has an overlay. */
  ghost predicate CoversSections(overlays: seq<Overlay>, sections: seq<seq<OverlayFrame>>, from: nat) {
    forall j :: from <= j < |sections| && sections[j] != [] ==>
      exists k :: 0 <= k < |overlays| && overlays[k].sectionIndex == j
  }

  /**
    `overlays` holds, in section order, exactly one overlay for each
    non-empty section from index `from` on, each built from its own section.
  */
  ghost predicate OverlaysFor(overlays: seq<Overlay>, sections: seq<seq<OverlayFrame>>, from: nat,
                              setMode: string, chunkIndex: nat, uniqueSetId: int)
  {
    && BuiltFromSections(overlays, sections, from, setMode, chunkIndex, uniqueSetId)
    && InSectionOrder(overlays)
    && CoversSections(overlays, sections, from)
  }

  /** The `sections.map(...).filter(Boolean)` of `processAnimationData`, from section `from` on. */
  function BuildOverlays(sections: seq<seq<OverlayFrame>>, from: nat, setMode: string, chunkIndex: nat, uniqueSetId: int): seq<Overlay>
    requires from <= |sections|
    decreases |sections| - from
  {
    if from == |sections| then []
    else
      var rest := BuildOverlays(sections, from + 1, setMode, chunkIndex, uniqueSetId);
      if sections[from] == [] then rest
      else [MakeOverlay(sections[from], from, setMode, chunkIndex, uniqueSetId)] + rest
  }

  /** Overlay construction yields one overlay per non-empty section, in section order. */
  lemma {:induction false} BuildOverlaysSpec(sections: seq<seq<OverlayFrame>>, from: nat, setMode: string, chunkIndex: nat, uniqueSetId: int)
    requires from <= |sections|
    ensures OverlaysFor(BuildOverlays(sections, from, setMode, chunkIndex, uniqueSetId), sections, from, setMode, chunkIndex, uniqueSetId)
    decreases |sections| - from
  {
    if from < |sections| {
      var rest := BuildOverlays(sections, from + 1, setMode, chunkIndex, uniqueSetId);
      BuildOverlaysSpec(sections, from + 1, setMode, chunkIndex, uniqueSetId);
      if sections[from] == [] {
        SkipEmptySection(rest, sections, from, setMode, chunkIndex, uniqueSetId);
      } else {
        PrependSection(rest, sections, from, setMode, chunkIndex, uniqueSetId);
      }
    }
  }

  lemma SkipEmptySection(rest: seq<Overlay>, sections: seq<seq<OverlayFrame>>, from: nat, setMode: string, chunkIndex: nat, uniqueSetId: int)
    requires from < |sections| && sections[from] == []
    requires OverlaysFor(rest, sections, from + 1, setMode, chunkIndex, uniqueSetId)
    ensures OverlaysFor(rest, sections, from, setMode, chunkIndex, uniqueSetId)
  {
  }

  lemma PrependSection(rest: seq<Overlay>, sections: seq<seq<OverlayFrame>>, from: nat, setMode: string, chunkIndex: nat, uniqueSetId: int)
    requires from < |sections| && sections[from] != []
    requires OverlaysFor(rest, sections, from + 1, setMode, chunkIndex, uniqueSetId)
    ensures OverlaysFor([MakeOverlay(sections[from], from, setMode, chunkIndex, uniqueSetId)] + rest, sections, from, setMode, chunkIndex, uniqueSetId)
  {
    var o := MakeOverlay(sections[from], from, setMode, chunkIndex, uniqueSetId);
    PrependBuilt(o, rest, sections, from, setMode, chunkIndex, uniqueSetId);
    PrependOrder(o, rest, sections, from, setMode, chunkIndex, uniqueSetId);
    PrependCovers(o, rest, sections, from);
  }

  lemma PrependBuilt(o: Overlay, rest: seq<Overlay>, sections: seq<seq<OverlayFrame>>, from: nat, setMode: string, chunkIndex: nat, uniqueSetId: int)
    requires from < |sections| && sections[from] != []
    requires o == MakeOverlay(sections[from], from, setMode, chunkIndex, uniqueSetId)
    requires BuiltFromSections(rest, sections, from + 1, setMode, chunkIndex, uniqueSetId)
    ensures BuiltFromSections([o] + rest, sections, from, setMode, chunkIndex, uniqueSetId)
  {
    var r := [o] + rest;
    forall k | 0 <= k < |r|
      ensures from <= r[k].sectionIndex < |sections| && sections[r[k].sectionIndex] != []
      ensures r[k] == MakeOverlay(sections[r[k].sectionIndex], r[k].sectionIndex, setMode, chunkIndex, uniqueSetId)
    {
      if k > 0 { assert r[k] == rest[k - 1]; }
    }
  }

  lemma PrependOrder(o: Overlay, rest: seq<Overlay>, sections: seq<seq<OverlayFrame>>, from: nat, setMode: string, chunkIndex: nat, uniqueSetId: int)
    requires o.sectionIndex == from
    requires BuiltFromSections(rest, sections, from + 1, setMode, chunkIndex, uniqueSetId)
    requires InSectionOrder(rest)
    ensures InSectionOrder([o] + rest)
  {
    var r := [o] + rest;
    forall k, l | 0 <= k < l < |r|
      ensures r[k].sectionIndex < r[l].sectionIndex
    {
      assert r[l] == rest[l - 1];
      if k > 0 { assert r[k] == rest[k - 1]; }
    }
  }

  lemma PrependCovers(o: Overlay, rest: seq<Overlay>, sections: seq<seq<OverlayFrame>>, from: nat)
    requires o.sectionIndex == from
    requires CoversSections(rest, sections, from + 1)
    ensures CoversSections([o] + rest, sections, from)
  {
    var r := [o] + rest;
    forall j | from <= j < |sections| && sections[j] != []
      ensures exists k :: 0 <= k < |r| && r[k].sectionIndex == j
    {
      if j == from {
        assert r[0].sectionIndex == j;
      } else {
        var k' :| 0 <= k' < |rest| && rest[k'].sectionIndex == j;
        assert r[k' + 1] == rest[k'];
      }
    }
  }

  /** Every overlay built from a set has at least one frame. */
  lemma BuiltOverlaysNonEmpty(sections: seq<seq<OverlayFrame>>, setMode: string, chunkIndex: nat, uniqueSetId: int)
    ensures forall o :: o in BuildOverlays(sections, 0, setMode, chunkIndex, uniqueSetId) ==> o.frames != []
  {
    var r := BuildOverlays(sections, 0, setMode, chunkIndex, uniqueSetId);
    BuildOverlaysSpec(sections, 0, setMode, chunkIndex, uniqueSetId);
    forall o | o in r ensures o.frames != [] {
      var k :| 0 <= k < |r| && r[k] == o;
    }
  }

  // ---------------------------------------------------------------------
  // One tick of one overlay
  // ---------------------------------------------------------------------

  /** The overlay's mode agrees with the cursor's direction (case-insensitively). */
  predicate DirectionMatches(mode: string, fd: int) {
    var m := Lower(mode);
    (fd == 1 && m == "forward") || (fd == -1 && m == "reverse")
  }

  /** A waiting overlay starts when the cursor sits on its first frame's base frame, going its way. */
  predicate StartsNow(o: Overlay, st: PlaybackState, c: Cursor) {
    && !st.done && !st.playing && |o.frames| > 0
    && c.gfi == o.frames[0].matchedSpriteFrameNumber
    && DirectionMatches(o.mode, c.fd)
  }

  /** The audio of an overlay is due at frame 3 of a turn's first chunk, at frame 0 otherwise. */
  predicate AudioDue(chunkIndex: nat, frame: nat) {
    (chunkIndex == 0 && frame == 3) || (chunkIndex != 0 && frame == 0)
  }

  datatype OverlayStep = OverlayStep(state: PlaybackState, started: bool, audio: bool)

  /** Drawing frame the overlay shows this tick, once the start rule has been applied. */
  function ShownFrame(st: PlaybackState, started: bool): nat {
    if started then 0 else st.currentDrawingFrame
  }

  /** Whether the overlay draws (and so advances) this tick. */
  predicate Draws(o: Overlay, st: PlaybackState, started: bool) {
    !st.done && (st.playing || started) && ShownFrame(st, started) < |o.frames|
  }

  /**
    The body of the overlay `forEach` in the draw loop for one overlay, with
    the drawing removed: start, advance by one frame, fire the audio start,
    complete.
  */
  function StepOverlay(o: Overlay, st: PlaybackState, c: Cursor): (r: OverlayStep)
    ensures r.started <==> StartsNow(o, st, c)
    ensures st.done ==> r.state == st && !r.audio
    ensures !st.done && !st.playing && !r.started ==> r.state == st && !r.audio
    ensures Draws(o, st, r.started) ==>
      var i := ShownFrame(st, r.started);
      && r.state.currentDrawingFrame == i + 1
      && (r.state.done <==> i + 1 == |o.frames|)
      && r.state.playing == !r.state.done
    ensures r.audio <==> Draws(o, st, r.started) && !st.audioStarted && AudioDue(o.chunkIndex, ShownFrame(st, r.started))
    ensures r.state.audioStarted <==> st.audioStarted || r.audio
  {
    if st.done then OverlayStep(st, false, false)
    else
      var started := StartsNow(o, st, c);
      var s1 := if started then st.(playing := true, currentDrawingFrame := 0) else st;
      if s1.playing && s1.currentDrawingFrame < |o.frames| then
        var audio := !s1.audioStarted && AudioDue(o.chunkIndex, s1.currentDrawingFrame);
        var next := s1.currentDrawingFrame + 1;
        var finished := next >= |o.frames|;
        OverlayStep(PlaybackState(!finished, next, finished, s1.audioStarted || audio), started, audio)
      else
        OverlayStep(s1, started, false)
  }

  /** A state that can sit in the active list between ticks. */
  predicate Live(o: Overlay, st: PlaybackState) {
    && |o.frames| > 0 && !st.done
    && (if st.playing then st.currentDrawingFrame < |o.frames| else st.currentDrawingFrame == 0)
  }

  /** A live overlay stays live or completes; it never gets stuck playing past its last frame. */
  lemma StepKeepsLive(o: Overlay, st: PlaybackState, c: Cursor)
    requires Live(o, st)
    ensures var r := StepOverlay(o, st, c); r.state.done || Live(o, r.state)
    ensures var r := StepOverlay(o, st, c); (st.playing || r.started) ==> Draws(o, st, r.started)
  {
  }

  // ---------------------------------------------------------------------
  // Several ticks of one overlay
  // ---------------------------------------------------------------------

  datatype OverlayRun = OverlayRun(state: PlaybackState, audios: nat)

  /** The overlay's state after one tick per cursor in `cursors`, with the number of audio starts fired. */
  function Run(o: Overlay, st: PlaybackState, cursors: seq<Cursor>): OverlayRun
    decreases |cursors|
  {
    if cursors == [] then OverlayRun(st, 0)
    else
      var r := StepOverlay(o, st, cursors[0]);
      var rest := Run(o, r.state, cursors[1..]);
      OverlayRun(rest.state, rest.audios + (if r.audio then 1 else 0))
  }

  /** The audio start of an overlay fires at most once, whatever the cursor does. */
  lemma {:induction false} AudioAtMostOnce(o: Overlay, st: PlaybackState, cursors: seq<Cursor>)
    ensures Run(o, st, cursors).audios <= (if st.audioStarted then 0 else 1)
    ensures st.audioStarted ==> Run(o, st, cursors).state.audioStarted
    decreases |cursors|
  {
    if cursors != [] {
      var r := StepOverlay(o, st, cursors[0]);
      AudioAtMostOnce(o, r.state, cursors[1..]);
    }
  }

  /** Whether an audio start is due somewhere in frames `from` .. `len`-1. */
  predicate AudioDueIn(chunkIndex: nat, from: nat, len: nat) {
    if chunkIndex == 0 then from <= 3 < len else from == 0 < len
  }

  /**
    Once playing, an overlay advances one frame per tick whatever the cursor
    does, completes exactly on the tick that draws its last frame, and fires
    its audio start iff one is due in the frames it still has to draw.
  */
  lemma {:induction false} PlayingRun(o: Overlay, st: PlaybackState, cursors: seq<Cursor>)
    requires Live(o, st) && st.playing
    requires st.currentDrawingFrame + |cursors| == |o.frames|
    ensures Run(o, st, cursors).state == PlaybackState(false, |o.frames|, true,
              st.audioStarted || AudioDueIn(o.chunkIndex, st.currentDrawingFrame, |o.frames|))
    ensures Run(o, st, cursors).audios ==
              (if !st.audioStarted && AudioDueIn(o.chunkIndex, st.currentDrawingFrame, |o.frames|) then 1 else 0)
    decreases |cursors|
  {
    var r := StepOverlay(o, st, cursors[0]);
    if |cursors| > 1 {
      PlayingRun(o, r.state, cursors[1..]);
    }
  }

  /** A playing overlay is not done before it has drawn its last frame. */
  lemma {:induction false} PlayingNotDoneEarly(o: Overlay, st: PlaybackState, cursors: seq<Cursor>)
    requires Live(o, st) && st.playing
    requires st.currentDrawingFrame + |cursors| < |o.frames|
    ensures Run(o, st, cursors).state.playing && !Run(o, st, cursors).state.done
    ensures Run(o, st, cursors).state.currentDrawingFrame == st.currentDrawingFrame + |cursors|
    decreases |cursors|
  {
    if cursors != [] {
      var r := StepOverlay(o, st, cursors[0]);
      PlayingNotDoneEarly(o, r.state, cursors[1..]);
    }
  }

  /**
    A fresh overlay that starts on the first tick plays for exactly as many
    ticks as it has frames, and fires its audio start exactly once iff it
    belongs to a later chunk or has at least four frames; an opening-chunk
    overlay of fewer than four frames never fires it.
  */
  lemma FullPlayAudio(o: Overlay, cursors: seq<Cursor>)
    requires |cursors| == |o.frames| > 0
    requires StartsNow(o, Fresh, cursors[0])
    ensures Run(o, Fresh, cursors).state.done
    ensures Run(o, Fresh, cursors).audios == 1 <==> o.chunkIndex != 0 || |o.frames| >= 4
    ensures Run(o, Fresh, cursors).audios <= 1
  {
    var r := StepOverlay(o, Fresh, cursors[0]);
    if |cursors| > 1 {
      PlayingRun(o, r.state, cursors[1..]);
    }
  }

  // ---------------------------------------------------------------------
  // All overlays of a tick, in list order
  // ---------------------------------------------------------------------

  datatype ChunkStart = ChunkStart(uniqueSetId: int, chunkIndex: nat)

  datatype StepAllResult = StepAllResult(states: seq<PlaybackState>, started: bool, events: seq<ChunkStart>)

  /**
    The overlay `forEach` of one tick, over all overlays with the tick-start
    cursor: new states, whether any overlay started, and the audio starts
    fired, in list order.
  */
  function StepAll(overlays: seq<Overlay>, states: seq<PlaybackState>, c: Cursor): (r: StepAllResult)
    requires |overlays| == |states|
    ensures |r.states| == |states|
    decreases |overlays|
  {
    if overlays == [] then StepAllResult([], false, [])
    else
      var n := |overlays| - 1;
      var prev := StepAll(overlays[..n], states[..n], c);
      var o := overlays[n];
      var r := StepOverlay(o, states[n], c);
      StepAllResult(prev.states + [r.state], prev.started || r.started,
                    prev.events + (if r.audio then [ChunkStart(o.uniqueSetId, o.chunkIndex)] else []))
  }

  /**
    Every overlay's new state is its own step against the shared cursor, as
    if it were stepped alone, and the tick starts something iff some
    overlay starts.
  */
  lemma StepAllSpec(overlays: seq<Overlay>, states: seq<PlaybackState>, c: Cursor)
    requires |overlays| == |states|
    ensures var r := StepAll(overlays, states, c);
      && (forall k :: 0 <= k < |states| ==> r.states[k] == StepOverlay(overlays[k], states[k], c).state)
      && (r.started <==> exists k :: 0 <= k < |states| && StepOverlay(overlays[k], states[k], c).started)
  {
    StepAllStates(overlays, states, c);
    StepAllStarted(overlays, states, c);
  }

  lemma {:induction false} StepAllStates(overlays: seq<Overlay>, states: seq<PlaybackState>, c: Cursor)
    requires |overlays| == |states|
    ensures var r := StepAll(overlays, states, c);
      forall k :: 0 <= k < |states| ==> r.states[k] == StepOverlay(overlays[k], states[k], c).state
    decreases |overlays|
  {
    if overlays != [] {
      var n := |overlays| - 1;
      StepAllStates(overlays[..n], states[..n], c);
      var r := StepAll(overlays, states, c);
      var prev := StepAll(overlays[..n], states[..n], c);
      assert r.states == prev.states + [StepOverlay(overlays[n], states[n], c).state];
      forall k | 0 <= k < |states|
        ensures r.states[k] == StepOverlay(overlays[k], states[k], c).state
      {
        if k < n {
          assert overlays[..n][k] == overlays[k] && states[..n][k] == states[k];
        }
      }
    }
  }

  lemma {:induction false} StepAllStarted(overlays: seq<Overlay>, states: seq<PlaybackState>, c: Cursor)
    requires |overlays| == |states|
    ensures StepAll(overlays, states, c).started <==>
      exists k :: 0 <= k < |states| && StepOverlay(overlays[k], states[k], c).started
    decreases |overlays|
  {
    if overlays != [] {
      var n := |overlays| - 1;
      StepAllStarted(overlays[..n], states[..n], c);
      assert forall k :: 0 <= k < n ==> overlays[..n][k] == overlays[k] && states[..n][k] == states[k];
    }
  }

  /** Stepping the first `i + 1` overlays is stepping the first `i`, then overlay `i`. */
  lemma StepAllExtend(overlays: seq<Overlay>, states: seq<PlaybackState>, c: Cursor, i: nat)
    requires |overlays| == |states| && i < |overlays|
    ensures var prev := StepAll(overlays[..i], states[..i], c);
      var r := StepOverlay(overlays[i], states[i], c);
      StepAll(overlays[..i + 1], states[..i + 1], c) ==
        StepAllResult(prev.states + [r.state], prev.started || r.started,
                      prev.events + (if r.audio then [ChunkStart(overlays[i].uniqueSetId, overlays[i].chunkIndex)] else []))
  {
    assert overlays[..i + 1][..i] == overlays[..i] && states[..i + 1][..i] == states[..i];
  }

  // ---------------------------------------------------------------------
  // Pruning completed overlays
  // ---------------------------------------------------------------------

  /** Positions of the states that are not done, in increasing order. */
  function ActiveIndices(states: seq<PlaybackState>): (idx: seq<nat>)
    ensures |idx| <= |states|
    ensures forall k :: 0 <= k < |idx| ==> idx[k] < |states| && !states[idx[k]].done
    ensures forall k, l :: 0 <= k < l < |idx| ==> idx[k] < idx[l]
    ensures forall j :: 0 <= j < |states| && !states[j].done ==> j in idx
    decreases |states|
  {
    if states == [] then []
    else
      var n := |states| - 1;
      var p := ActiveIndices(states[..n]);
      if states[n].done then p else p + [n]
  }

  datatype Active = Active(overlays: seq<Overlay>, states: seq<PlaybackState>)

  /**
    The cleanup loop of the draw loop: keeps exactly the overlays whose state
    is not done, each with its own state, in their original order.
  */
  function KeepActive(overlays: seq<Overlay>, states: seq<PlaybackState>): (r: Active)
    requires |overlays| == |states|
    ensures var idx := ActiveIndices(states);
      && |r.overlays| == |r.states| == |idx|
      && forall k :: 0 <= k < |idx| ==> r.overlays[k] == overlays[idx[k]] && r.states[k] == states[idx[k]]
    decreases |overlays|
  {
    if overlays == [] then Active([], [])
    else
      var n := |overlays| - 1;
      var p := KeepActive(overlays[..n], states[..n]);
      if states[n].done then p else Active(p.overlays + [overlays[n]], p.states + [states[n]])
  }

  /** Pruning the first `i + 1` overlays is pruning the first `i`, then keeping overlay `i` unless it is done. */
  lemma KeepActiveExtend(overlays: seq<Overlay>, states: seq<PlaybackState>, i: nat)
    requires |overlays| == |states| && i < |overlays|
    ensures var p := KeepActive(overlays[..i], states[..i]);
      KeepActive(overlays[..i + 1], states[..i + 1]) ==
        if states[i].done then p else Active(p.overlays + [overlays[i]], p.states + [states[i]])
  {
    assert overlays[..i + 1][..i] == overlays[..i] && states[..i + 1][..i] == states[..i];
  }

  lemma Snoc<T>(s: seq<T>)
    requires s != []
    ensures s[..|s| - 1] + [s[|s| - 1]] == s
  {
  }

  /** When no overlay is done, pruning changes nothing. */
  lemma {:induction false} KeepActiveNoneDone(overlays: seq<Overlay>, states: seq<PlaybackState>)
    requires |overlays| == |states|
    requires forall j :: 0 <= j < |states| ==> !states[j].done
    ensures KeepActive(overlays, states) == Active(overlays, states)
    decreases |overlays|
  {
    if overlays != [] {
      var n := |overlays| - 1;
      assert forall j :: 0 <= j < n ==> states[..n][j] == states[j];
      KeepActiveNoneDone(overlays[..n], states[..n]);
      var p := KeepActive(overlays[..n], states[..n]);
      assert !states[n].done;
      assert KeepActive(overlays, states) == Active(p.overlays + [overlays[n]], p.states + [states[n]]);
      Snoc(overlays);
      Snoc(states);
    }
  }

  /** When pruning keeps as many overlays as there were, it keeps them all unchanged. */
  lemma {:induction false} KeepActiveSameLength(overlays: seq<Overlay>, states: seq<PlaybackState>)
    requires |overlays| == |states|
    requires |KeepActive(overlays, states).overlays| == |overlays|
    ensures KeepActive(overlays, states) == Active(overlays, states)
    decreases |overlays|
  {
    if overlays != [] {
      var n := |overlays| - 1;
      assert forall j :: 0 <= j < n ==> states[..n][j] == states[j];
      var p := KeepActive(overlays[..n], states[..n]);
      assert |p.overlays| <= n;
      assert !states[n].done;
      KeepActiveSameLength(overlays[..n], states[..n]);
      assert KeepActive(overlays, states) == Active(p.overlays + [overlays[n]], p.states + [states[n]]);
      Snoc(overlays);
      Snoc(states);
    }
  }

  /** Pruning removes every done overlay: no kept state is done. */
  lemma KeepActiveAllLive(overlays: seq<Overlay>, states: seq<PlaybackState>)
    requires |overlays| == |states|
    requires forall j :: 0 <= j < |states| ==> states[j].done || Live(overlays[j], states[j])
    ensures var r := KeepActive(overlays, states);
      forall k :: 0 <= k < |r.states| ==> Live(r.overlays[k], r.states[k])
  {
  }
}
