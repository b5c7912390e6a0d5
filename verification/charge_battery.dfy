/** The ChargeBattery composition: the descriptions of its events, how
    the GoToCharger standby resolves its target, how a "charge_battery"
    event message is deserialized, and how the event and the task are
    unfolded into their parts. Registration with the event initializer,
    the JSON schema and the bundle and task libraries are not modelled;
    their outputs are plain datatypes here. */
module ChargeBattery {
  import opened Wrappers
  import opened Agv
  import GoToPlace

  const GO_TO_CHARGER_CATEGORY: string := "Go to charger"
  const WAIT_FOR_CHARGE_CATEGORY: string := "Wait for charging"
  const CHARGE_BATTERY_CATEGORY: string := "Charge Battery"
  /** The message key naming an explicit charger. */
  const CHARGER_WAYPOINT_KEY: string := "charger_waypoint"

  /** The "Go to charger" event. As in the C++ `GoToChargerDescription`, the charger is a pair: a
      waypoint and a flag saying whether that waypoint was given. */
  datatype GoToChargerDescription = GoToChargerDescription(
    category: string,
    detail: string,
    chargerWaypoint: Waypoint,
    hasChargerWaypoint: bool)
  {
    /** The charger this event was asked to use, if one was given. */
    function Charger(): Option<Waypoint>
    {
      if hasChargerWaypoint then Some(chargerWaypoint) else None
    }

    /** Built by one of the constructors: no stray waypoint without the flag. */
    predicate Valid()
    {
      category == GO_TO_CHARGER_CATEGORY && detail == ""
      && (hasChargerWaypoint || chargerWaypoint == 0)
    }
  }

  /** The default constructor: go to the robot's own charger. */
  function DefaultGoToCharger(): (d: GoToChargerDescription)
    ensures d.Valid()
    ensures d.Charger() == None
  {
    GoToChargerDescription(GO_TO_CHARGER_CATEGORY, "", 0, false)
  }

  /** The waypoint constructor: go to the charger at `w`. */
  function GoToChargerAt(w: Waypoint): (d: GoToChargerDescription)
    ensures d.Valid()
    ensures d.Charger() == Some(w)
  {
    GoToChargerDescription(GO_TO_CHARGER_CATEGORY, "", w, true)
  }

  /** The "Wait for charging" event. Its behaviour (battery thresholds) is
      not modelled; only its identity within the bundle is. */
  datatype WaitForChargeDescription = WaitForChargeDescription(category: string, detail: string)

  /** `WaitForChargeDescription()`: a plain-data stand-in for the
      constructor, fixing only its category and empty detail. */
  function DefaultWaitForCharge(): WaitForChargeDescription
  {
    WaitForChargeDescription(WAIT_FOR_CHARGE_CATEGORY, "")
  }

  /** `GoToChargerDescription::standby`: the GoToPlace description the
      standby is made from. An explicit charger is used as given; without
      one the robot's dedicated charger is used. */
  function StandbyDescription(d: GoToChargerDescription, ctx: RobotContext): (g: GoToPlace.Description)
    ensures |g.oneOf| == 1
    ensures d.Charger().Some? ==> g.oneOf[0].waypoint == d.Charger().value
    ensures d.Charger().None? ==> g.oneOf[0].waypoint == ctx.dedicatedChargerWp
  {
    var target := if d.hasChargerWaypoint then d.chargerWaypoint else ctx.dedicatedChargerWp;
    GoToPlace.MakeDescription(target)
  }

  /** The "Charge Battery" event, with the same optional charger. */
  datatype ChargeBatteryEventDescription = ChargeBatteryEventDescription(
    category: string,
    detail: string,
    chargerWaypoint: Waypoint,
    hasChargerWaypoint: bool)
  {
    function Charger(): Option<Waypoint>
    {
      if hasChargerWaypoint then Some(chargerWaypoint) else None
    }

    predicate Valid()
    {
      category == CHARGE_BATTERY_CATEGORY && detail == ""
      && (hasChargerWaypoint || chargerWaypoint == 0)
    }
  }

  /** The default constructor: charge at the robot's own charger. */
  function DefaultChargeBatteryEvent(): (d: ChargeBatteryEventDescription)
    ensures d.Valid()
    ensures d.Charger() == None
  {
    ChargeBatteryEventDescription(CHARGE_BATTERY_CATEGORY, "", 0, false)
  }

  /** The waypoint constructor: charge at the charger at `w`. */
  function ChargeBatteryEventAt(w: Waypoint): (d: ChargeBatteryEventDescription)
    ensures d.Valid()
    ensures d.Charger() == Some(w)
  {
    ChargeBatteryEventDescription(CHARGE_BATTERY_CATEGORY, "", w, true)
  }

  /** Two valid descriptions that name the same charger are the same. */
  lemma ValidEventDeterminedByCharger(a: ChargeBatteryEventDescription, b: ChargeBatteryEventDescription)
    requires a.Valid() && b.Valid()
    requires a.Charger() == b.Charger()
    ensures a == b
  {
  }

  /** What the place deserializer reports: a place or nothing, and errors. */
  datatype DeserializedPlace = DeserializedPlace(description: Option<GoToPlace.Place>, errors: seq<string>)

  /** What an event deserializer reports: a description or a null shared_ptr
      (None), and errors. */
  datatype DeserializedEvent = DeserializedEvent(
    description: Option<ChargeBatteryEventDescription>,
    errors: seq<string>)

  /** The deserializer registered for "charge_battery" messages. The message
      is a JSON object already checked against the schema, seen here as a map
      from keys to values of an unspecified JSON type `J`; `placeDeser` is
      the fleet's place deserializer, assumed to answer the same for the
      same value. Without a charger key the default description is produced;
      with one whose place does not deserialize, no description and exactly
      that place's errors; otherwise a description naming that place's
      waypoint and no errors, even if the place deserializer reported some. */
  function DeserializeChargeBattery<J>(placeDeser: J -> DeserializedPlace, msg: map<string, J>): (r: DeserializedEvent)
    ensures r.description.Some? ==> r.description.value.Valid() && r.errors == []
    ensures r.description.None? <==>
      CHARGER_WAYPOINT_KEY in msg && placeDeser(msg[CHARGER_WAYPOINT_KEY]).description.None?
    ensures r.description.None? ==> r.errors == placeDeser(msg[CHARGER_WAYPOINT_KEY]).errors
    ensures CHARGER_WAYPOINT_KEY !in msg ==> r.description == Some(DefaultChargeBatteryEvent())
    ensures r.description.Some? && CHARGER_WAYPOINT_KEY in msg ==>
      placeDeser(msg[CHARGER_WAYPOINT_KEY]).description.Some? &&
      r.description.value.Charger() == Some(placeDeser(msg[CHARGER_WAYPOINT_KEY]).description.value.waypoint)
  {
    if CHARGER_WAYPOINT_KEY !in msg then
      DeserializedEvent(Some(DefaultChargeBatteryEvent()), [])
    else
      var place := placeDeser(msg[CHARGER_WAYPOINT_KEY]);
      match place.description
      case None => DeserializedEvent(None, place.errors)
      case Some(p) => DeserializedEvent(Some(ChargeBatteryEventAt(p.waypoint)), [])
  }

  /** The message builder that `DeserializeRoundTrip` pairs with the
      deserializer: a message asking for the given charge-battery event,
      holding the charger key exactly when a charger is named, with
      `encodePlace` of it as the value. No encoder of this kind exists in
      the adapter; this one only gives the round trip its other half. */
  function ChargeBatteryMessage<J>(d: ChargeBatteryEventDescription, encodePlace: Waypoint -> J): (msg: map<string, J>)
    ensures CHARGER_WAYPOINT_KEY in msg <==> d.Charger().Some?
  {
    if d.hasChargerWaypoint then map[CHARGER_WAYPOINT_KEY := encodePlace(d.chargerWaypoint)] else map[]
  }

  /** Deserializing the message for a valid description gives back that
      description and no errors, provided the place deserializer reads the
      encoded charger back as that waypoint. */
  lemma DeserializeRoundTrip<J>(
    d: ChargeBatteryEventDescription,
    encodePlace: Waypoint -> J,
    placeDeser: J -> DeserializedPlace)
    requires d.Valid()
    requires d.hasChargerWaypoint ==>
      placeDeser(encodePlace(d.chargerWaypoint)).description == Some(GoToPlace.Place(d.chargerWaypoint))
    ensures DeserializeChargeBattery(placeDeser, ChargeBatteryMessage(d, encodePlace)) == DeserializedEvent(Some(d), [])
  {
  }

  /** The kinds of bundle the bundle library offers. */
  datatype BundleKind = Sequence | ParallelAll | ParallelAny

  /** An event inside the charge-battery bundle. */
  datatype BundledEvent =
    | GoToCharger(goToCharger: GoToChargerDescription)
    | WaitForCharge(waitForCharge: WaitForChargeDescription)

  /** A bundle description: its events, how they are combined, its category. */
  datatype BundleDescription = BundleDescription(events: seq<BundledEvent>, kind: BundleKind, category: string)

  /** `charge_battery_event_unfolder`: go to the charger, then wait for the
      charge, in sequence; the charger named by the event, if any, is the one
      the first step goes to. */
  function UnfoldChargeBatteryEvent(d: ChargeBatteryEventDescription): (b: BundleDescription)
    ensures b.kind == Sequence && b.category == CHARGE_BATTERY_CATEGORY
    ensures |b.events| == 2
    ensures b.events[0].GoToCharger? && b.events[0].goToCharger.Valid()
    ensures b.events[0].goToCharger.Charger() == d.Charger()
    ensures b.events[1] == WaitForCharge(DefaultWaitForCharge())
  {
    if d.hasChargerWaypoint then
      BundleDescription([GoToCharger(GoToChargerAt(d.chargerWaypoint)), WaitForCharge(DefaultWaitForCharge())],
                        Sequence, CHARGE_BATTERY_CATEGORY)
    else
      BundleDescription([GoToCharger(DefaultGoToCharger()), WaitForCharge(DefaultWaitForCharge())],
                        Sequence, CHARGE_BATTERY_CATEGORY)
  }

  /** A phase of a task: its one event and its category and detail. */
  datatype PhaseDescription = PhaseDescription(event: ChargeBatteryEventDescription, category: string, detail: string)

  /** A phase as added to the task builder, with the phases that run if it
      is cancelled. */
  datatype TaskPhase = TaskPhase(phase: PhaseDescription, cancellationSequence: seq<PhaseDescription>)

  /** A built task: its phases in order, its category and detail. */
  datatype TaskDescription = TaskDescription(phases: seq<TaskPhase>, category: string, detail: string)

  /** `charge_battery_task_unfolder`: whatever the request says, one
      "Charge Battery" phase holding a charge-battery event that names no
      charger, with nothing to run on cancellation. */
  function UnfoldChargeBatteryTask<R>(request: R): (t: TaskDescription)
    ensures |t.phases| == 1
    ensures t.phases[0].phase.event.Valid() && t.phases[0].phase.event.Charger() == None
    ensures t.phases[0].phase.category == CHARGE_BATTERY_CATEGORY && t.phases[0].cancellationSequence == []
    ensures t.category == CHARGE_BATTERY_CATEGORY && t.detail == ""
  {
    var phase := PhaseDescription(DefaultChargeBatteryEvent(), CHARGE_BATTERY_CATEGORY, "");
    TaskDescription([TaskPhase(phase, [])], CHARGE_BATTERY_CATEGORY, "")
  }
}
