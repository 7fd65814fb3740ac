/**
  The agent-specific display configuration: draw position and size of the
  overlay, and the two base-frame numbers at which talking may hand over to
  a transition sequence. Each field falls back to a default when the agent
  does not supply a usable number.
*/
module AgentConfig {
  import opened Wrappers

  /** The agent's optional numeric fields (`POS_X`, `POS_Y`, `WIDTH`, `HEIGHT`, `tr_1_frame`, `tr_2_frame`). */
  datatype Agent = Agent(
    posX: Option<int>, posY: Option<int>, width: Option<int>, height: Option<int>,
    tr1Frame: Option<int>, tr2Frame: Option<int>)

  datatype DisplayConfig = DisplayConfig(posX: int, posY: int, width: int, height: int, tr1: int, tr2: int)

  const DefaultPosX := 150
  const DefaultPosY := 30
  const DefaultWidth := 200
  const DefaultHeight := 200
  const DefaultTransition1 := 53
  const DefaultTransition2 := 83

  function OrDefault(v: Option<int>, default: int): int {
    if v.Some? then v.value else default
  }

  function PositiveOrDefault(v: Option<int>, default: int): int {
    if v.Some? && v.value > 0 then v.value else default
  }

  /**
    The configuration for the current agent (`None` when there is no agent).
    Each field on its own: a supplied position or transition point is used
    as given, a supplied positive width or height likewise, and any other
    field takes its default, so width and height are always positive.
  */
  function Display(agent: Option<Agent>): (c: DisplayConfig)
    ensures c.width > 0 && c.height > 0
    ensures c.posX == if agent.Some? && agent.value.posX.Some? then agent.value.posX.value else DefaultPosX
    ensures c.posY == if agent.Some? && agent.value.posY.Some? then agent.value.posY.value else DefaultPosY
    ensures c.width == if agent.Some? && agent.value.width.Some? && agent.value.width.value > 0 then agent.value.width.value else DefaultWidth
    ensures c.height == if agent.Some? && agent.value.height.Some? && agent.value.height.value > 0 then agent.value.height.value else DefaultHeight
    ensures c.tr1 == if agent.Some? && agent.value.tr1Frame.Some? then agent.value.tr1Frame.value else DefaultTransition1
    ensures c.tr2 == if agent.Some? && agent.value.tr2Frame.Some? then agent.value.tr2Frame.value else DefaultTransition2
  {
    match agent
    case None =>
      DisplayConfig(DefaultPosX, DefaultPosY, DefaultWidth, DefaultHeight, DefaultTransition1, DefaultTransition2)
    case Some(a) =>
      DisplayConfig(
        OrDefault(a.posX, DefaultPosX), OrDefault(a.posY, DefaultPosY),
        PositiveOrDefault(a.width, DefaultWidth), PositiveOrDefault(a.height, DefaultHeight),
        OrDefault(a.tr1Frame, DefaultTransition1), OrDefault(a.tr2Frame, DefaultTransition2))
  }

  /** Without an agent, or with an agent that supplies nothing usable, every field is its default. */
  lemma DisplayDefaults(agent: Option<Agent>)
    requires agent.None? || (
      && agent.value.posX.None? && agent.value.posY.None?
      && (agent.value.width.None? || agent.value.width.value <= 0)
      && (agent.value.height.None? || agent.value.height.value <= 0)
      && agent.value.tr1Frame.None? && agent.value.tr2Frame.None?)
    ensures Display(agent) == DisplayConfig(150, 30, 200, 200, 53, 83)
  {
  }
}
