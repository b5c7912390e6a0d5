# ChargeBattery composition and GoToPlace goal selection, in Dafny

This project models two pieces of decision logic from the RMF fleet adapter
(`rmf_fleet_adapter`).

**ChargeBattery** (`tasks/ChargeBattery.cpp`). A "charge battery" event is two
steps run in sequence: go to a charger, then wait for the charge. The charger
is optional. A "charge_battery" event message may name a charger place under
the key `"charger_waypoint"`. The `GoToCharger` standby goes to that waypoint
when one is given, and to the robot's dedicated charger when none is. A
charge-battery *task* never names a charger, so it always uses the dedicated
charger. The model covers:

- the two descriptions and their constructors: `GoToChargerDescription` and
  `ChargeBatteryEventDescription`, each a waypoint plus a flag;
- the standby's target resolution;
- the branching of the message deserializer;
- the event unfolder and the task unfolder;
- end-to-end lemmas that connect these steps.

**GoToPlace goal selection** (`events/GoToPlace.hpp`, `_choose_goal`). Its
body is not part of this model, so the model implements its documented
contract. The goal is the nearest acceptable destination. When
`only_same_map` is set, destinations on other maps are filtered out first.
The source gives no tie-break. This model picks the first nearest candidate
in input order and proves that this choice is unique (`ChooseGoalIsFirstNearest`).

Each module follows one part of the source:

- `Wrappers`: `Option`. It stands for `std::optional` and for a null `shared_ptr`.
- `Agv`: `Waypoint`, a `std::size_t` bounded by `SIZE_MAX`, and the two
  answers of the robot context that are used: the dedicated charger and the
  current map.
- `GoToPlace`: places, descriptions, goals, candidates, and goal selection.
- `ChargeBattery`: descriptions, standby resolution, deserialization and the unfolders.
- `ChargePipeline`: lemmas that link these steps end to end.

Some parts of the source become parameters or plain data:

- The fleet's place deserializer is a function parameter `J -> DeserializedPlace`.
  `J` is an unspecified JSON value type.
- A schema-validated JSON object is a `map<string, J>`.
- Goal selection takes each candidate's map and path cost as data
  (`Candidate`, or `mapOf` / `costOf` in `Candidates`). In the source these
  come from the navigation graph and the planner.
- The dedicated charger and the current map are fields of `RobotContext`.

`_choose_goal` is `const`. In this model it is a pure function, so it leaves
no state changed, and repeated calls with the same inputs agree by construction.

Where the code and its comment disagree, the model follows the code. The
comment at `ChargeBattery.cpp:224` says that an invalid place sends the robot
back to its dedicated charger. The code at lines 225-227 does something
else: it returns no description, together with the place deserializer's
errors. `DeserializeChargeBattery` states that behaviour.

One run of the message deserializer calls the place deserializer up to
twice on the same value. The model calls it once (see "## Left out").

## Model

| member | source | states |
|---|---|---|
| GoToPlace.ChooseIndex | rmf_fleet_adapter/src/rmf_fleet_adapter/events/GoToPlace.hpp:115-120 | Returns no index exactly when no candidate survives the same-map filter. Otherwise it returns the first candidate, in input order, that survives and whose cost is no greater than any other survivor's. |
| GoToPlace.ChooseGoal | rmf_fleet_adapter/src/rmf_fleet_adapter/events/GoToPlace.hpp:115-120 | The result is none exactly when no acceptable destination survives the filter. A returned goal is a surviving candidate's goal, that candidate is nearest among the survivors, and with `only_same_map` it lies on the robot's map. |
| GoToPlace.ChooseGoalIsFirstNearest | rmf_fleet_adapter/src/rmf_fleet_adapter/events/GoToPlace.hpp:115-117 | The selection is fully fixed by its specification. Whatever index is the first nearest survivor is the one chosen. |
| GoToPlace.UnrestrictedIgnoresMap | rmf_fleet_adapter/src/rmf_fleet_adapter/events/GoToPlace.hpp:115-119 | Without `only_same_map`, no candidate is excluded by map. A goal exists iff there is any candidate, and the result does not depend on the robot's map. |
| GoToPlace.RelaxingTheFilterNeverFarther | rmf_fleet_adapter/src/rmf_fleet_adapter/events/GoToPlace.hpp:115-120 | If the same-map pass finds a goal, the pass across maps finds one that is no farther. If the overall nearest destination is on the robot's map, both passes agree. |
| GoToPlace.SameMapFilterScenario | rmf_fleet_adapter/src/rmf_fleet_adapter/events/GoToPlace.hpp:115-119 | The robot is on L1; waypoint 5 is on L1 at cost 10 and waypoint 9 is on L2 at cost 3. The same-map pass picks 5, and the pass across maps picks 9. |
| ChargeBattery.DefaultGoToCharger | rmf_fleet_adapter/src/rmf_fleet_adapter/tasks/ChargeBattery.cpp:40-46 | The default "Go to charger" description names no charger, and its stored waypoint is 0. |
| ChargeBattery.GoToChargerAt | rmf_fleet_adapter/src/rmf_fleet_adapter/tasks/ChargeBattery.cpp:49-55 | The waypoint constructor sets the flag and keeps the given waypoint unchanged. |
| ChargeBattery.StandbyDescription | rmf_fleet_adapter/src/rmf_fleet_adapter/tasks/ChargeBattery.cpp:60-79 | The standby's GoToPlace description has one destination. It is the named charger when one is given, and the context's dedicated charger otherwise. |
| ChargeBattery.DefaultChargeBatteryEvent | rmf_fleet_adapter/src/rmf_fleet_adapter/tasks/ChargeBattery.cpp:178-185 | The default "Charge Battery" description names no charger, and its stored waypoint is 0. |
| ChargeBattery.ChargeBatteryEventAt | rmf_fleet_adapter/src/rmf_fleet_adapter/tasks/ChargeBattery.cpp:187-194 | The waypoint constructor sets the flag and keeps the given waypoint unchanged. |
| ChargeBattery.ValidEventDeterminedByCharger | rmf_fleet_adapter/src/rmf_fleet_adapter/tasks/ChargeBattery.cpp:178-197 | Two constructor-built event descriptions are equal exactly when they name the same optional charger. |
| ChargeBattery.DeserializeChargeBattery | rmf_fleet_adapter/src/rmf_fleet_adapter/tasks/ChargeBattery.cpp:216-234 | With no charger key, the result is the default description and no errors. If the charger place fails to deserialize, the result is no description plus exactly that place's errors. Otherwise it names that place's waypoint and has no errors. |
| ChargeBattery.DeserializeRoundTrip | rmf_fleet_adapter/src/rmf_fleet_adapter/tasks/ChargeBattery.cpp:216-234 | Deserializing the message for a description gives that description back with no errors. This holds when the place deserializer reads the encoded charger back. |
| ChargeBattery.UnfoldChargeBatteryEvent | rmf_fleet_adapter/src/rmf_fleet_adapter/tasks/ChargeBattery.cpp:245-260 | The result is a Sequence bundle in category "Charge Battery" with exactly two events: GoToCharger, then WaitForCharge. The first event names a charger iff the input does, with the same waypoint. |
| ChargeBattery.UnfoldChargeBatteryTask | rmf_fleet_adapter/src/rmf_fleet_adapter/tasks/ChargeBattery.cpp:266-277 | Whatever the request, the task has one "Charge Battery" phase. That phase holds an event description that names no charger and has an empty cancellation sequence. |
| ChargePipeline.ChargerTarget | rmf_fleet_adapter/src/rmf_fleet_adapter/tasks/ChargeBattery.cpp:60-79 | Unfolding an event and resolving its GoToCharger standby targets the named charger exactly, or the dedicated charger when none is named. |
| ChargePipeline.SpecifiedChargerIsUsed | rmf_fleet_adapter/src/rmf_fleet_adapter/tasks/ChargeBattery.cpp:225-233 | A message whose charger place deserializes sends the robot to that place's waypoint, whatever the dedicated charger is. |
| ChargePipeline.AbsentChargerFallsBack | rmf_fleet_adapter/src/rmf_fleet_adapter/tasks/ChargeBattery.cpp:221-223 | A message without a charger key sends the robot to its dedicated charger. |
| ChargePipeline.TaskChargeUsesDedicatedCharger | rmf_fleet_adapter/src/rmf_fleet_adapter/tasks/ChargeBattery.cpp:266-277 | A task-level charge has one phase, and that phase targets the dedicated charger. |
| ChargePipeline.ChargerIsChosenGoal | rmf_fleet_adapter/src/rmf_fleet_adapter/tasks/ChargeBattery.cpp:72-78 | The GoToCharger standby's only destination is the charger. Goal selection across maps therefore picks it. The same-map pass picks it iff it is on the robot's map, and otherwise picks nothing. |

## Left out

- `WaitForChargeDescription::standby` and the `WaitForCharge` phase are left
  out. Battery thresholds are floating point, and the legacy phase shim is a
  foreign object. The wait step is modelled only by its place in the bundle.
- JSON schema registration and validation (`add_schema`,
  `make_validator_shared`) are left out. The message is assumed to be an
  object that has already been validated.
- Registration with the event initializer (`add`, `Bundle::unfold`,
  `Task::unfold`) and the task builder's internals are library glue. The
  model represents their outputs as plain datatypes.
- `Placeholder::Description`'s category and detail are kept as strings.
  Orientation in places and goals is left out because it is floating point.
- Everything else in `GoToPlace::Active` is left out: path finding and its
  timers, retries, replan subscriptions, traffic and reservation negotiation,
  plan execution, `interrupt`, `cancel`, `kill` and `backup`. Only their
  declarations appear in the source, and their behaviour is asynchronous
  coordination.
- The fallback policy is not modelled as an operation: a same-map pass, then
  a pass across maps. Its caller is not part of this model.
  `RelaxingTheFilterNeverFarther` states how the two passes relate.
- `duration_estimate` and `remaining_time_estimate` are left out. Their
  bodies are not part of this model, and they depend on the planner's durations.
- GoToPlace.ChooseGoal: every candidate carries a cost. The model does not
  cover a destination that the planner cannot reach, because the source does
  not say how `_choose_goal` treats one.
- ChargeBattery.DeserializeChargeBattery: assumes that the two calls of the
  place deserializer on the same value agree (`ChargeBattery.cpp:225`, then
  `:227` or `:230`), because it is a function parameter here. A place
  deserializer whose answers differ between calls is not modelled.
