/** What the charging and goal-selection logic reads from the robot's
    context (agv::RobotContext). The context itself is not modelled; only
    the values it answers with. */
module Agv {

  /** Largest value of std::size_t on the 64-bit targets the adapter runs on. */
  const SIZE_MAX: int := 0xFFFF_FFFF_FFFF_FFFF

  /** A navigation-graph waypoint index, a std::size_t in the source. */
  type Waypoint = w: nat | w <= SIZE_MAX

  /** The answers of the robot context that this model needs:
      `dedicatedChargerWp` is what `dedicated_charger_wp()` returns and
      `currentMap` is the name of the map the robot is on now. */
  datatype RobotContext = RobotContext(dedicatedChargerWp: Waypoint, currentMap: string)
}
