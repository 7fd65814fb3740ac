/**
  The base-frame load sequencer of the sprite loader hook: it asks for the
  four base animations one after another (idle first), appends each
  streamed frame to the list of its type, tracks the idle progress for the
  loading bar, and opens the `isAssetsLoaded` gate the engine waits for as
  soon as the idle animation is complete.

  Socket traffic is left out: the three listeners are the three handler
  methods, and the request the hook emits is what `RequestedType` returns.
*/
module SpriteLoader {
  import opened Wrappers
  import opened Text
  import opened AgentConfig
  import EngineModel
  import CursorSteps

  const IdleType := "Idle_1"

  /** The order in which the base animations are requested. */
  const LoadOrder: seq<string> := ["Idle_1", "Talking_1", "TR_1", "TR_2"]

  // ---------------------------------------------------------------------
  // Load order
  // ---------------------------------------------------------------------

  /** `indexOf`: the first position of `x`, or -1 when it does not occur. */
  function IndexOf(xs: seq<string>, x: string): (i: int)
    ensures -1 <= i < |xs|
    ensures i == -1 <==> x !in xs
    ensures i >= 0 ==> xs[i] == x && forall j :: 0 <= j < i ==> xs[j] != x
    decreases |xs|
  {
    if xs == [] then -1
    else if xs[0] == x then 0
    else
      var k := IndexOf(xs[1..], x);
      if k == -1 then -1 else k + 1
  }

  /** The type requested after `completed` finishes: the next in the load order, none after the last or for an unknown type. */
  function NextLoadType(completed: string): (next: Option<string>)
    ensures next.Some? ==> next.value in LoadOrder
  {
    var i := IndexOf(LoadOrder, completed);
    if i > -1 && i != |LoadOrder| - 1 then Some(LoadOrder[i + 1]) else None
  }

  /** Completing a type of the load order moves to the one after it; the last one, or an unknown type, ends the sequence. */
  lemma LoadOrderAdvances(completed: string)
    ensures forall i :: 0 <= i < |LoadOrder| - 1 && completed == LoadOrder[i] ==> NextLoadType(completed) == Some(LoadOrder[i + 1])
    ensures completed == LoadOrder[|LoadOrder| - 1] ==> NextLoadType(completed) == None
    ensures completed !in LoadOrder ==> NextLoadType(completed) == None
  {
    var i := IndexOf(LoadOrder, completed);
    if completed in LoadOrder {
      assert LoadOrder[0] != LoadOrder[1] && LoadOrder[0] != LoadOrder[2] && LoadOrder[0] != LoadOrder[3];
      assert LoadOrder[1] != LoadOrder[2] && LoadOrder[1] != LoadOrder[3] && LoadOrder[2] != LoadOrder[3];
      assert LoadOrder[i] == completed;
    }
  }

  // ---------------------------------------------------------------------
  // Frame data URIs
  // ---------------------------------------------------------------------

  const DataPrefix := "data:"
  const Base64Marker := ";base64,"

  /** The stored frame: `data:<mime type>;base64,<data>`. */
  function FrameUri(mimeType: string, data: string): string {
    DataPrefix + mimeType + Base64Marker + data
  }

  /** The text before and after the first `c`, if `c` occurs. */
  function SplitAtFirst(s: string, c: char): (r: Option<(string, string)>)
    ensures r.None? <==> c !in s
    ensures r.Some? ==> s == r.value.0 + [c] + r.value.1 && c !in r.value.0
    decreases |s|
  {
    if s == [] then None
    else if s[0] == c then Some(([], s[1..]))
    else
      match SplitAtFirst(s[1..], c)
      case None => None
      case Some((before, after)) => Some(([s[0]] + before, after))
  }

  lemma {:induction false} SplitAtFirstOf(a: string, c: char, b: string)
    requires c !in a
    ensures SplitAtFirst(a + [c] + b, c) == Some((a, b))
    decreases |a|
  {
    var s := a + [c] + b;
    if a == [] {
      assert s[1..] == b;
    } else {
      assert s[1..] == a[1..] + [c] + b;
      SplitAtFirstOf(a[1..], c, b);
      assert [a[0]] + a[1..] == a;
    }
  }

  /** Reads a frame URI back into its MIME type and its data. */
  function ParseFrameUri(uri: string): Option<(string, string)> {
    if !StartsWith(uri, DataPrefix) then None
    else
      match SplitAtFirst(uri[|DataPrefix|..], ';')
      case None => None
      case Some((mimeType, rest)) =>
        if StartsWith(rest, Base64Marker[1..]) then Some((mimeType, rest[|Base64Marker| - 1..])) else None
  }

  lemma PrefixThen(p: string, d: string)
    ensures StartsWith(p + d, p) && (p + d)[|p|..] == d
  {
    assert (p + d)[..|p|] == p;
  }

  /** A frame URI keeps its MIME type (one without `;`, as MIME types are written) and its data apart. */
  lemma FrameUriRoundTrip(mimeType: string, data: string)
    requires ';' !in mimeType
    ensures ParseFrameUri(FrameUri(mimeType, data)) == Some((mimeType, data))
  {
    var rest := Base64Marker[1..] + data;
    var tail := mimeType + [';'] + rest;
    assert FrameUri(mimeType, data) == DataPrefix + tail;
    PrefixThen(DataPrefix, tail);
    SplitAtFirstOf(mimeType, ';', rest);
    PrefixThen(Base64Marker[1..], data);
  }

  // ---------------------------------------------------------------------
  // Loading progress
  // ---------------------------------------------------------------------

  /** Idle frames received so far and idle frames announced (1 until announced). */
  datatype Progress = Progress(loaded: nat, total: int)

  /** `Math.round(num / den)` for a non-negative quotient: the nearest integer, halves rounded up. */
  function RoundHalfUp(num: nat, den: nat): (r: nat)
    requires den >= 1
    ensures (2 * den) * r <= 2 * num + den < (2 * den) * (r + 1)
  {
    (2 * num + den) / (2 * den)
  }

  /** The loading bar value: the idle progress as a rounded percentage, capped at 100. */
  function PercentLoaded(p: Progress): (pct: nat)
    requires p.total >= 1
    ensures pct <= 100
  {
    CursorSteps.Min(RoundHalfUp(100 * p.loaded, p.total), 100)
  }

  /** The bar starts empty and is full once all announced idle frames have arrived. */
  lemma PercentLoadedEnds(p: Progress)
    requires p.total >= 1
    ensures p.loaded == 0 ==> PercentLoaded(p) == 0
    ensures p.loaded >= p.total ==> PercentLoaded(p) == 100
  {
    var r := RoundHalfUp(100 * p.loaded, p.total);
    if p.loaded == 0 {
      if r > 0 {
        MulMonotone(1, r, 2 * p.total);
        assert false;
      }
    }
    if p.loaded >= p.total && r < 100 {
      MulMonotone(r + 1, 100, 2 * p.total);
      MulMonotone(p.total, p.loaded, 200);
      assert false;
    }
  }

  /** The percentage never goes down as frames arrive. */
  lemma PercentLoadedMonotone(p: Progress, q: Progress)
    requires p.total == q.total >= 1 && p.loaded <= q.loaded
    ensures PercentLoaded(p) <= PercentLoaded(q)
  {
    RoundHalfUpMonotone(100 * p.loaded, 100 * q.loaded, p.total);
  }

  lemma RoundHalfUpMonotone(a: nat, b: nat, den: nat)
    requires den >= 1 && a <= b
    ensures RoundHalfUp(a, den) <= RoundHalfUp(b, den)
  {
    var ra, rb := RoundHalfUp(a, den), RoundHalfUp(b, den);
    if ra > rb {
      MulMonotone(rb + 1, ra, 2 * den);
      assert false;
    }
  }

  lemma MulMonotone(x: nat, y: nat, k: nat)
    requires x <= y
    ensures x * k <= y * k
  {
  }

  // ---------------------------------------------------------------------
  // The loader state and its handlers
  // ---------------------------------------------------------------------

  /** The four base frame lists, as data URIs, in arrival order. */
  datatype FrameLists = FrameLists(idle: seq<string>, talking: seq<string>, transition1: seq<string>, transition2: seq<string>)

  datatype LoaderState = LoaderState(progress: Progress, isAssetsLoaded: bool, loadingType: Option<string>, lists: FrameLists)

  const NoFrames := FrameLists([], [], [], [])

  /** The state at mount, and after every agent change. */
  const Reset := LoaderState(Progress(0, 1), false, None, NoFrames)

  /** The announced total is at least 1, so the loading bar never divides by zero. */
  predicate ValidState(s: LoaderState) {
    s.progress.total >= 1
  }

  /** What the engine is given: how many frames each base list holds. */
  function Counts(lists: FrameLists): EngineModel.FrameCounts {
    EngineModel.FrameCounts(|lists.idle|, |lists.talking|, |lists.transition1|, |lists.transition2|)
  }

  /** The agent-change effect: with an agent, everything is cleared; without one, nothing happens. */
  function ResetForAgent(s: LoaderState, agent: Option<Agent>): (r: LoaderState)
    ensures ValidState(s) ==> ValidState(r)
  {
    if agent.None? then s else Reset
  }

  /** `handleAnimationTotalFrames`: only the idle total matters; a non-positive total counts as 1. */
  function TotalFrames(s: LoaderState, animationType: string, totalFrames: int): (r: LoaderState)
    ensures ValidState(s) ==> ValidState(r)
  {
    if animationType == IdleType then s.(progress := s.progress.(total := if totalFrames > 0 then totalFrames else 1))
    else s
  }

  /** The list a frame of `animationType` is appended to, or `None` for an unknown type. */
  function AppendFrame(lists: FrameLists, animationType: string, uri: string): Option<FrameLists> {
    if animationType == "Idle_1" then Some(lists.(idle := lists.idle + [uri]))
    else if animationType == "Talking_1" then Some(lists.(talking := lists.talking + [uri]))
    else if animationType == "TR_1" then Some(lists.(transition1 := lists.transition1 + [uri]))
    else if animationType == "TR_2" then Some(lists.(transition2 := lists.transition2 + [uri]))
    else None
  }

  /** `handleReceiveBaseFrame`: the frame joins its type's list; an idle frame also advances the progress. */
  function ReceiveBaseFrame(s: LoaderState, animationType: string, mimeType: string, data: string): (r: LoaderState)
    ensures ValidState(s) ==> ValidState(r)
  {
    match AppendFrame(s.lists, animationType, FrameUri(mimeType, data))
    case None => s
    case Some(lists) =>
      var s1 := s.(lists := lists);
      if animationType == IdleType then s1.(progress := s1.progress.(loaded := s1.progress.loaded + 1)) else s1
  }

  /** `handleAnimationFramesComplete`: idle completion opens the gate; the sequence moves to the next type. */
  function FramesComplete(s: LoaderState, animationType: string): (r: LoaderState)
    ensures ValidState(s) ==> ValidState(r)
  {
    var s1 := if animationType == IdleType then s.(isAssetsLoaded := true) else s;
    s1.(loadingType := NextLoadType(animationType))
  }

  /** The listener effect: once loading can start and nothing is loading, the first type of the order is chosen. */
  function BeginLoading(s: LoaderState, canStart: bool): (r: LoaderState)
    ensures ValidState(s) ==> ValidState(r)
  {
    if canStart && s.loadingType.None? then s.(loadingType := Some(LoadOrder[0])) else s
  }

  /** The request effect: the type asked of the server, if any. */
  function RequestedType(s: LoaderState, canRequest: bool): Option<string> {
    if canRequest then s.loadingType else None
  }

  /**
    The render in which the agent changes: the reset effect runs first and
    the listener effect after it, but the listener effect still reads the
    loading type of that render, from before the reset. Both set the
    loading type; the later update wins.
  */
  function AgentChangeCommit(s: LoaderState, agent: Agent, canStart: bool): (r: LoaderState)
    ensures ValidState(r)
  {
    var reset := ResetForAgent(s, Some(agent));
    if canStart && s.loadingType.None? then reset.(loadingType := Some(LoadOrder[0])) else reset
  }

  /**
    The requests emitted around an agent change. The request effect depends
    on the agent's id, so it also runs in the agent-change render, for the
    new agent but with the loading type read before the reset. In the next
    render it runs again only if the loading type changed, and asks for the
    new type if there is one.
  */
  function AgentChangeRequests(s: LoaderState, agent: Agent, canStart: bool, canRequest: bool): seq<string> {
    var stale := RequestedType(s, canRequest);
    var r := AgentChangeCommit(s, agent, canStart);
    var next := if r.loadingType != s.loadingType then RequestedType(r, canRequest) else None;
    (if stale.Some? then [stale.value] else []) + (if next.Some? then [next.value] else [])
  }

  /** Completes whatever is being requested, `n` times over; a finished sequence stays as it is. */
  function CompleteRequested(s: LoaderState, n: nat): LoaderState
    decreases n
  {
    if n == 0 || s.loadingType.None? then s
    else CompleteRequested(FramesComplete(s, s.loadingType.value), n - 1)
  }

  // ---------------------------------------------------------------------
  // Properties
  // ---------------------------------------------------------------------

  /** A received frame is appended to exactly the list of its type, and an unknown type changes nothing. */
  lemma ReceiveAppendsToOne(s: LoaderState, animationType: string, mimeType: string, data: string)
    ensures var r := ReceiveBaseFrame(s, animationType, mimeType, data);
      var uri := FrameUri(mimeType, data);
      && r.isAssetsLoaded == s.isAssetsLoaded && r.loadingType == s.loadingType
      && (r.lists.idle == if animationType == "Idle_1" then s.lists.idle + [uri] else s.lists.idle)
      && (r.lists.talking == if animationType == "Talking_1" then s.lists.talking + [uri] else s.lists.talking)
      && (r.lists.transition1 == if animationType == "TR_1" then s.lists.transition1 + [uri] else s.lists.transition1)
      && (r.lists.transition2 == if animationType == "TR_2" then s.lists.transition2 + [uri] else s.lists.transition2)
      && (animationType !in LoadOrder ==> r == s)
  {
  }

  /** Only idle frames move the loading bar, by one frame each. */
  lemma ReceiveProgress(s: LoaderState, animationType: string, mimeType: string, data: string)
    ensures var r := ReceiveBaseFrame(s, animationType, mimeType, data);
      && r.progress.total == s.progress.total
      && r.progress.loaded == if animationType == IdleType then s.progress.loaded + 1 else s.progress.loaded
  {
  }

  /** The engine sees one more frame in exactly the list of the received frame's type. */
  lemma ReceiveCounts(s: LoaderState, animationType: string, mimeType: string, data: string)
    requires animationType in LoadOrder
    ensures var c := Counts(ReceiveBaseFrame(s, animationType, mimeType, data).lists);
      var c0 := Counts(s.lists);
      c.idle + c.talking + c.transition1 + c.transition2 == c0.idle + c0.talking + c0.transition1 + c0.transition2 + 1
  {
    ReceiveAppendsToOne(s, animationType, mimeType, data);
  }

  /**
    The assets gate opens only when the idle animation completes, and
    closes only on an agent change.
  */
  lemma AssetsGate(s: LoaderState, t: string, n: int, mimeType: string, data: string, canStart: bool, agent: Option<Agent>)
    ensures FramesComplete(s, t).isAssetsLoaded <==> s.isAssetsLoaded || t == IdleType
    ensures TotalFrames(s, t, n).isAssetsLoaded == s.isAssetsLoaded
    ensures ReceiveBaseFrame(s, t, mimeType, data).isAssetsLoaded == s.isAssetsLoaded
    ensures BeginLoading(s, canStart).isAssetsLoaded == s.isAssetsLoaded
    ensures ResetForAgent(s, agent).isAssetsLoaded == (agent.None? && s.isAssetsLoaded)
  {
  }

  /** An agent change empties every list, resets the progress, closes the gate and stops the sequence. */
  lemma AgentChangeResets(s: LoaderState, agent: Agent)
    ensures var r := ResetForAgent(s, Some(agent));
      && Counts(r.lists) == EngineModel.FrameCounts(0, 0, 0, 0)
      && r.progress == Progress(0, 1) && !r.isAssetsLoaded && r.loadingType.None?
      && PercentLoaded(r.progress) == 0
  {
  }

  /**
    An agent change clears the lists, the progress and the gate in every
    case, but moves the sequence to `Idle_1` only when nothing was loading
    before it. Exactly one request goes out with the new agent's id: the
    type that was loading, when there was one, and otherwise `Idle_1` once
    loading can start.
  */
  lemma AgentChangeDuringLoad(s: LoaderState, agent: Agent, canStart: bool)
    ensures var r := AgentChangeCommit(s, agent, canStart);
      && r.lists == NoFrames && r.progress == Progress(0, 1) && !r.isAssetsLoaded
      && (r.loadingType == Some(IdleType) <==> canStart && s.loadingType.None?)
      && (r.loadingType.Some? ==> r.loadingType == Some(IdleType))
      && AgentChangeRequests(s, agent, canStart, true) ==
           (if s.loadingType.Some? then [s.loadingType.value] else if canStart then [IdleType] else [])
      && AgentChangeRequests(s, agent, canStart, false) == []
  {
  }

  /** No completion ever moves the sequence back to the idle animation. */
  lemma NextIsNeverIdle(t: string)
    ensures NextLoadType(t) != Some(IdleType)
  {
    LoadOrderAdvances(t);
  }

  /**
    With the gate closed and the idle animation not requested, completing
    the requested types in turn never opens the gate.
  */
  lemma {:induction false} GateStaysClosed(s: LoaderState, n: nat)
    requires !s.isAssetsLoaded && s.loadingType != Some(IdleType)
    ensures !CompleteRequested(s, n).isAssetsLoaded
    decreases n
  {
    if n > 0 && s.loadingType.Some? {
      NextIsNeverIdle(s.loadingType.value);
      GateStaysClosed(FramesComplete(s, s.loadingType.value), n - 1);
    }
  }

  /**
    An agent change in the middle of a load: the stale request is answered
    for the new agent, and its completion moves the sequence on from the
    stale type. When that type is `Idle_1`, its completion opens the gate
    and the rest of the order follows; when it is a later type, the gate
    never opens again however many requested types complete.
  */
  lemma AgentChangeMidLoad(s: LoaderState, agent: Agent, canStart: bool, n: nat)
    requires s.loadingType.Some? && s.loadingType.value in LoadOrder
    ensures var t := s.loadingType.value;
      var r1 := FramesComplete(AgentChangeCommit(s, agent, canStart), t);
      && r1.loadingType == NextLoadType(t)
      && (r1.isAssetsLoaded <==> t == IdleType)
      && (t == IdleType ==>
            var r4 := CompleteRequested(r1, 3);
            RequestedType(r1, true) == Some(LoadOrder[1]) && r4.isAssetsLoaded && r4.loadingType.None?)
      && (t != IdleType ==> !CompleteRequested(r1, n).isAssetsLoaded)
  {
    var t := s.loadingType.value;
    var r1 := FramesComplete(AgentChangeCommit(s, agent, canStart), t);
    LoadOrderAdvances(t);
    if t == IdleType {
      LoadOrderAdvances(LoadOrder[1]);
      LoadOrderAdvances(LoadOrder[2]);
      LoadOrderAdvances(LoadOrder[3]);
      var r2 := FramesComplete(r1, LoadOrder[1]);
      var r3 := FramesComplete(r2, LoadOrder[2]);
      assert CompleteRequested(r1, 3) == CompleteRequested(r2, 2) == CompleteRequested(r3, 1);
    } else {
      NextIsNeverIdle(t);
      GateStaysClosed(r1, n);
    }
  }

  /** From an idle loader, the agent-change render is the reset followed by the start of the sequence. */
  lemma AgentChangeFromIdle(s: LoaderState, agent: Agent, canStart: bool)
    requires s.loadingType.None?
    ensures AgentChangeCommit(s, agent, canStart) == BeginLoading(ResetForAgent(s, Some(agent)), canStart)
  {
  }

  /**
    After an agent change while nothing was loading, completing each
    requested type in turn requests the four base animations in the load
    order, opens the gate with the first completion, and then stops asking.
  */
  lemma FullLoadSequence(s: LoaderState, agent: Agent)
    requires s.loadingType.None?
    ensures var s0 := AgentChangeCommit(s, agent, true);
      var s1 := FramesComplete(s0, RequestedType(s0, true).value);
      var s2 := FramesComplete(s1, RequestedType(s1, true).value);
      var s3 := FramesComplete(s2, RequestedType(s2, true).value);
      var s4 := FramesComplete(s3, RequestedType(s3, true).value);
      && RequestedType(s0, true) == Some(LoadOrder[0])
      && RequestedType(s1, true) == Some(LoadOrder[1])
      && RequestedType(s2, true) == Some(LoadOrder[2])
      && RequestedType(s3, true) == Some(LoadOrder[3])
      && RequestedType(s4, true) == None
      && !s0.isAssetsLoaded && s1.isAssetsLoaded && s4.isAssetsLoaded
  {
    LoadOrderAdvances(LoadOrder[0]);
    LoadOrderAdvances(LoadOrder[1]);
    LoadOrderAdvances(LoadOrder[2]);
    LoadOrderAdvances(LoadOrder[3]);
  }

  // ---------------------------------------------------------------------
  // The hook's state as an object
  // ---------------------------------------------------------------------

  /** The hook instance: its state variables, updated in place by the effects and the socket handlers. */
  class BaseFrameLoader {
    var progress: Progress
    var isAssetsLoaded: bool
    var loadingType: Option<string>
    var lists: FrameLists

    ghost function State(): LoaderState
      reads this
    {
      LoaderState(progress, isAssetsLoaded, loadingType, lists)
    }

    ghost predicate Valid()
      reads this
    {
      ValidState(State())
    }

    constructor()
      ensures State() == Reset
      ensures Valid()
    {
      progress := Progress(0, 1);
      isAssetsLoaded := false;
      loadingType := None;
      lists := NoFrames;
    }

    method AgentChanged(agent: Option<Agent>)
      requires Valid()
      modifies this
      ensures State() == ResetForAgent(old(State()), agent)
      ensures Valid()
    {
      if agent.None? {
        return;
      }
      lists := NoFrames;
      progress := Progress(0, 1);
      isAssetsLoaded := false;
      loadingType := None;
    }

    method CommitAgentChange(agent: Agent, canStart: bool, canRequest: bool) returns (requests: seq<string>)
      requires Valid()
      modifies this
      ensures State() == AgentChangeCommit(old(State()), agent, canStart)
      ensures requests == AgentChangeRequests(old(State()), agent, canStart, canRequest)
      ensures Valid()
    {
      var staleType := loadingType;
      requests := if canRequest && staleType.Some? then [staleType.value] else [];
      lists := NoFrames;
      progress := Progress(0, 1);
      isAssetsLoaded := false;
      loadingType := None;
      if canStart && staleType.None? {
        loadingType := Some(LoadOrder[0]);
      }
      if canRequest && loadingType != staleType && loadingType.Some? {
        requests := requests + [loadingType.value];
      }
    }

    method HandleAnimationTotalFrames(animationType: string, totalFrames: int)
      requires Valid()
      modifies this
      ensures State() == TotalFrames(old(State()), animationType, totalFrames)
      ensures Valid()
    {
      if animationType == IdleType {
        progress := progress.(total := if totalFrames > 0 then totalFrames else 1);
      }
    }

    method HandleReceiveBaseFrame(animationType: string, mimeType: string, data: string)
      requires Valid()
      modifies this
      ensures State() == ReceiveBaseFrame(old(State()), animationType, mimeType, data)
      ensures Valid()
    {
      var uri := FrameUri(mimeType, data);
      if animationType == "Idle_1" {
        lists := lists.(idle := lists.idle + [uri]);
      } else if animationType == "Talking_1" {
        lists := lists.(talking := lists.talking + [uri]);
      } else if animationType == "TR_1" {
        lists := lists.(transition1 := lists.transition1 + [uri]);
      } else if animationType == "TR_2" {
        lists := lists.(transition2 := lists.transition2 + [uri]);
      } else {
        return;
      }
      if animationType == IdleType {
        progress := progress.(loaded := progress.loaded + 1);
      }
    }

    method HandleAnimationFramesComplete(animationType: string)
      requires Valid()
      modifies this
      ensures State() == FramesComplete(old(State()), animationType)
      ensures Valid()
    {
      if animationType == IdleType {
        isAssetsLoaded := true;
      }
      var completedIndex := IndexOf(LoadOrder, animationType);
      var isLastInQueue := completedIndex == |LoadOrder| - 1;
      if completedIndex > -1 && !isLastInQueue {
        loadingType := Some(LoadOrder[completedIndex + 1]);
      } else {
        loadingType := None;
      }
    }

    method StartLoading(canStart: bool)
      requires Valid()
      modifies this
      ensures State() == BeginLoading(old(State()), canStart)
      ensures Valid()
    {
      if !canStart {
        return;
      }
      if loadingType.None? {
        loadingType := Some(LoadOrder[0]);
      }
    }

    method LoadingPercentage() returns (pct: nat)
      requires Valid()
      ensures pct == PercentLoaded(progress)
      ensures pct <= 100
    {
      var rounded := (200 * progress.loaded + progress.total) / (2 * progress.total);
      pct := if rounded < 100 then rounded else 100;
    }
  }
}
