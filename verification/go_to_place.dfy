/** The GoToPlace event's description and its goal selection
    (`GoToPlace::Active::_choose_goal`). Only the selection contract is
    modelled: path costs and the map of each waypoint come from the planner
    and the navigation graph, so they enter as data. */
module GoToPlace {
  import opened Wrappers
  import opened Agv

  /** A place the robot may be sent to. Orientation is not modelled. */
  datatype Place = Place(waypoint: Waypoint)

  /** A GoToPlace description: the robot should reach one of `oneOf`. */
  datatype Description = Description(oneOf: seq<Place>)

  /** `GoToPlace::Description::make(waypoint)`: go to exactly that waypoint.
      A plain-data stand-in for the bundle library's factory. */
  function MakeDescription(w: Waypoint): Description
  {
    Description([Place(w)])
  }

  /** A planner goal (rmf_traffic::agv::Plan::Goal). */
  datatype Goal = Goal(waypoint: Waypoint)

  /** One acceptable destination as goal selection sees it: the goal, the
      name of the map its waypoint lies on, and the path cost from the
      robot's current location. */
  datatype Candidate = Candidate(goal: Goal, mapName: string, cost: nat)

  /** The candidates of a description, given the graph's map of each
      waypoint and the planner's cost of reaching it. */
  function Candidates(d: Description, mapOf: Waypoint -> string, costOf: Waypoint -> nat): seq<Candidate>
  {
    seq(|d.oneOf|, i requires 0 <= i < |d.oneOf| =>
      Candidate(Goal(d.oneOf[i].waypoint), mapOf(d.oneOf[i].waypoint), costOf(d.oneOf[i].waypoint)))
  }

  /** A candidate survives the filter unless `onlySameMap` is set and it lies
      on a different map from the robot. */
  predicate Survives(c: Candidate, robotMap: string, onlySameMap: bool)
  {
    !onlySameMap || c.mapName == robotMap
  }

  /** Index `i` is a nearest surviving candidate. */
  ghost predicate IsNearest(cs: seq<Candidate>, robotMap: string, onlySameMap: bool, i: int)
  {
    && 0 <= i < |cs|
    && Survives(cs[i], robotMap, onlySameMap)
    && forall j :: 0 <= j < |cs| && Survives(cs[j], robotMap, onlySameMap) ==> cs[i].cost <= cs[j].cost
  }

  /** Index `i` is the first nearest surviving candidate in input order: the
      tie-break this model chooses, since `_choose_goal`'s documentation
      states none. */
  ghost predicate IsFirstNearest(cs: seq<Candidate>, robotMap: string, onlySameMap: bool, i: int)
  {
    && IsNearest(cs, robotMap, onlySameMap, i)
    && forall j :: 0 <= j < i && Survives(cs[j], robotMap, onlySameMap) ==> cs[i].cost < cs[j].cost
  }

  /** No candidate survives the filter. */
  ghost predicate NoneSurvive(cs: seq<Candidate>, robotMap: string, onlySameMap: bool)
  {
    forall j :: 0 <= j < |cs| ==> !Survives(cs[j], robotMap, onlySameMap)
  }

  /** The position of the chosen candidate: the first nearest survivor, or
      None when nothing survives. */
  function ChooseIndex(cs: seq<Candidate>, robotMap: string, onlySameMap: bool): (r: Option<nat>)
    ensures r.None? <==> NoneSurvive(cs, robotMap, onlySameMap)
    ensures r.Some? ==> IsFirstNearest(cs, robotMap, onlySameMap, r.value)
    decreases |cs|
  {
    if |cs| == 0 then None
    else
      var rest := ChooseIndex(cs[1..], robotMap, onlySameMap);
      if !Survives(cs[0], robotMap, onlySameMap) then
        match rest
        case None => None
        case Some(k) => Some(k + 1)
      else
        match rest
        case Some(k) =>
          if cs[k + 1].cost < cs[0].cost then Some(k + 1) else Some(0)
        case None => Some(0)
  }

  /** `_choose_goal(only_same_map)`: the goal of the nearest acceptable
      destination, restricted to the robot's map when `onlySameMap` holds;
      None exactly when no destination survives that restriction. */
  function ChooseGoal(cs: seq<Candidate>, robotMap: string, onlySameMap: bool): (g: Option<Goal>)
    ensures g.None? <==> NoneSurvive(cs, robotMap, onlySameMap)
    ensures g.Some? ==> exists i :: IsFirstNearest(cs, robotMap, onlySameMap, i) && cs[i].goal == g.value
    ensures g.Some? && onlySameMap ==> exists i :: 0 <= i < |cs| && cs[i].goal == g.value && cs[i].mapName == robotMap
  {
    match ChooseIndex(cs, robotMap, onlySameMap)
    case None => None
    case Some(i) => Some(cs[i].goal)
  }

  /** The selection is fully determined by its specification: whichever
      index is the first nearest survivor is the one whose goal is chosen. */
  lemma ChooseGoalIsFirstNearest(cs: seq<Candidate>, robotMap: string, onlySameMap: bool, i: int)
    requires IsFirstNearest(cs, robotMap, onlySameMap, i)
    ensures ChooseIndex(cs, robotMap, onlySameMap) == Some(i)
    ensures ChooseGoal(cs, robotMap, onlySameMap) == Some(cs[i].goal)
  {
  }

  /** Without the same-map filter the robot's map plays no part: the
      nearest destination over all candidates is chosen, whatever map the
      robot is on, and there is a goal whenever there is a candidate. */
  lemma UnrestrictedIgnoresMap(cs: seq<Candidate>, robotMap: string, otherMap: string)
    ensures ChooseGoal(cs, robotMap, false).Some? <==> |cs| > 0
    ensures ChooseGoal(cs, robotMap, false) == ChooseGoal(cs, otherMap, false)
  {
  }

  /** The relaxed pass across maps never yields a farther goal than the
      pass restricted to the robot's map, and when the overall nearest
      destination lies on the robot's map both passes agree. */
  lemma RelaxingTheFilterNeverFarther(cs: seq<Candidate>, robotMap: string)
    ensures ChooseIndex(cs, robotMap, true).Some? ==> ChooseIndex(cs, robotMap, false).Some?
    ensures ChooseIndex(cs, robotMap, true).Some? ==>
      cs[ChooseIndex(cs, robotMap, false).value].cost <= cs[ChooseIndex(cs, robotMap, true).value].cost
    ensures ChooseIndex(cs, robotMap, false).Some? && cs[ChooseIndex(cs, robotMap, false).value].mapName == robotMap ==>
      ChooseIndex(cs, robotMap, true) == ChooseIndex(cs, robotMap, false)
  {
  }

  /** A worked case: the robot is on map "L1"; waypoint 5 on "L1" costs 10
      and waypoint 9 on "L2" costs 3. Restricted to the robot's map the goal
      is 5; across maps it is the nearer 9. */
  lemma SameMapFilterScenario()
    ensures var cs := [Candidate(Goal(5), "L1", 10), Candidate(Goal(9), "L2", 3)];
      && ChooseGoal(cs, "L1", true) == Some(Goal(5))
      && ChooseGoal(cs, "L1", false) == Some(Goal(9))
  {
  }
}
