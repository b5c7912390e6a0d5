/** End-to-end properties of the ChargeBattery composition: from a message
    or a task request, through the event unfolder and the GoToCharger
    standby, to the waypoint the robot is sent to and the goal selected
    for it. */
module ChargePipeline {
  import opened Wrappers
  import opened Agv
  import GoToPlace
  import opened ChargeBattery

  /** The waypoint a charge-battery event sends the robot to: unfold the
      event, take its GoToCharger step and resolve that step's standby. A
      named charger is used exactly; otherwise the dedicated charger. */
  function ChargerTarget(d: ChargeBatteryEventDescription, ctx: RobotContext): (w: Waypoint)
    ensures d.Charger().Some? ==> w == d.Charger().value
    ensures d.Charger().None? ==> w == ctx.dedicatedChargerWp
  {
    var bundle := UnfoldChargeBatteryEvent(d);
    StandbyDescription(bundle.events[0].goToCharger, ctx).oneOf[0].waypoint
  }

  /** A message naming a charger place that deserializes sends the robot to
      that place's waypoint, whatever the dedicated charger is. */
  lemma SpecifiedChargerIsUsed<J>(placeDeser: J -> DeserializedPlace, msg: map<string, J>, ctx: RobotContext)
    requires CHARGER_WAYPOINT_KEY in msg
    requires placeDeser(msg[CHARGER_WAYPOINT_KEY]).description.Some?
    ensures var r := DeserializeChargeBattery(placeDeser, msg);
      && r.description.Some?
      && ChargerTarget(r.description.value, ctx) == placeDeser(msg[CHARGER_WAYPOINT_KEY]).description.value.waypoint
  {
  }

  /** A message without a charger sends the robot to its dedicated charger. */
  lemma AbsentChargerFallsBack<J>(placeDeser: J -> DeserializedPlace, msg: map<string, J>, ctx: RobotContext)
    requires CHARGER_WAYPOINT_KEY !in msg
    ensures var r := DeserializeChargeBattery(placeDeser, msg);
      && r.description.Some?
      && ChargerTarget(r.description.value, ctx) == ctx.dedicatedChargerWp
  {
  }

  /** A charge-battery task, whatever its request, sends the robot to its
      dedicated charger in its only phase. */
  lemma TaskChargeUsesDedicatedCharger<R>(request: R, ctx: RobotContext)
    ensures var t := UnfoldChargeBatteryTask(request);
      && |t.phases| == 1
      && ChargerTarget(t.phases[0].phase.event, ctx) == ctx.dedicatedChargerWp
  {
  }

  /** The GoToPlace event that the GoToCharger standby starts has the charger
      as its only destination, so goal selection across maps picks the
      charger, and on the same-map pass it picks the charger exactly when
      the charger is on the robot's map and otherwise nothing. */
  lemma ChargerIsChosenGoal(
    d: ChargeBatteryEventDescription,
    ctx: RobotContext,
    mapOf: Waypoint -> string,
    costOf: Waypoint -> nat)
    ensures var target := ChargerTarget(d, ctx);
      var cs := GoToPlace.Candidates(StandbyDescription(UnfoldChargeBatteryEvent(d).events[0].goToCharger, ctx), mapOf, costOf);
      && GoToPlace.ChooseGoal(cs, ctx.currentMap, false) == Some(GoToPlace.Goal(target))
      && GoToPlace.ChooseGoal(cs, ctx.currentMap, true) ==
         (if mapOf(target) == ctx.currentMap then Some(GoToPlace.Goal(target)) else None)
  {
  }
}
