/** The planning node (`PointCloudPlanner`): four flags, the goal and the
    robot's start state, updated by message handlers and read by a
    fixed-rate planning tick. The sampling-tree planner it drives is an
    oracle: every call the node makes on it is recorded in order, and the
    two answers the node branches on are supplied as a `Report`. */
module PlannerNode {
  import opened Common

  /** Workspace box handed to the planner. */
  datatype Bounds = Bounds(xl: real, xh: real, yl: real, yh: real, zl: real, zh: real)

  /** The node's parameters, read once when it is constructed. */
  datatype Config = Config(
    safetyMargin: real, searchMargin: real, maxRadius: real, sensingRange: real,
    refinePortion: real, samplePortion: real, goalPortion: real,
    pathFindLimit: real, maxSamples: int, stopHorizon: real, commitTime: real,
    bounds: Bounds)
  {
    /** The re-rooting distance is read from the "sensing_range" parameter. */
    function ReplanDistance(): real { sensingRange }
  }

  /** One call on the sampling-tree planner, with the arguments the node passes. */
  datatype PlannerCall =
    | SetInput(points: seq<Vec3>)
    | SetStartPt(start: Option<Vec3>, goal: Option<Vec3>)
    | Reset
    | SetPt(start: Option<Vec3>, goal: Option<Vec3>, bounds: Bounds,
            localRange: real, maxIter: int, samplePortion: real, goalPortion: real)
    | SafeRegionExpansion(timeLimit: real)
    | GetPath
    | GetPathExistStatus
    | ResetRoot(distance: real)
    | GetGlobalNaviStatus
    | SafeRegionRefine(portion: real)
    | SafeRegionEvaluate(portion: real)
    | GetTree

  /** The node's mutable fields that the handlers and the tick read or write. */
  datatype State = State(
    startPos: Option<Vec3>, startVel: Option<Vec3>, startAcc: Option<Vec3>,
    endPos: Option<Vec3>,
    trajExist: bool, targetArrive: bool, targetReceive: bool, hasMap: bool)

  /** The state right after construction: every flag false, no vector written. */
  const Init: State := State(None, None, None, None, false, false, false, false)

  /** An odometry message: position, linear twist and angular twist. */
  datatype Odometry = Odometry(position: Vec3, linear: Vec3, angular: Vec3)

  /** A point-cloud message: the size of its raw data and the points the
      (foreign) decoder extracts from it. */
  datatype PointCloud = PointCloud(dataSize: nat, decoded: seq<Vec3>)

  /** The planner's answers to `getPathExistStatus` and `getGlobalNaviStatus`
      during one tick. */
  datatype Report = Report(pathExists: bool, globalNaviDone: bool)

  /** A handler's effect: the new state and the planner calls it made. */
  datatype Outcome = Outcome(state: State, calls: seq<PlannerCall>)

  /** Waypoint handler: a valid goal replaces the target and forces a fresh
      initial plan; a malformed message is dropped. */
  function OnWaypoints(s: State, msg: PathMsg): (o: Outcome)
    ensures o.calls == []
    ensures |msg.poses| == 0 || msg.poses[0].z < 0.0 ==> o.state == s
    ensures |msg.poses| > 0 && msg.poses[0].z >= 0.0 ==>
              o.state.endPos == Some(msg.poses[0])
              && o.state.targetReceive && !o.state.targetArrive && !o.state.trajExist
              && o.state.hasMap == s.hasMap && o.state.startPos == s.startPos
              && o.state.startVel == s.startVel && o.state.startAcc == s.startAcc
  {
    match GoalOf(msg)
    case None => Outcome(s, [])
    case Some(goal) =>
      Outcome(s.(endPos := Some(goal), targetReceive := true,
                 targetArrive := false, trajExist := false), [])
  }

  /** Simulation-only observation handler: the first three entries are the
      start position. The source indexes them without a size check. */
  function OnObservation(s: State, data: seq<real>): (o: Outcome)
    requires |data| >= 3
    ensures o.calls == []
    ensures o.state.startPos == Some(Vec3(data[0], data[1], data[2]))
    ensures o.state.(startPos := s.startPos) == s
  {
    Outcome(s.(startPos := Some(Vec3(data[0], data[1], data[2]))), [])
  }

  /** Odometry handler: records the start state (its "acceleration" is the
      message's angular twist) and, once a target is known, hands start and
      goal to the planner. */
  function OnOdometry(s: State, m: Odometry): (o: Outcome)
    ensures o.state.startPos == Some(m.position)
    ensures o.state.startVel == Some(m.linear)
    ensures o.state.startAcc == Some(m.angular)
    ensures o.state.(startPos := s.startPos, startVel := s.startVel, startAcc := s.startAcc) == s
    ensures o.calls == (if s.targetReceive then [SetStartPt(Some(m.position), s.endPos)] else [])
  {
    var s' := s.(startPos := Some(m.position), startVel := Some(m.linear),
                 startAcc := Some(m.angular));
    Outcome(s', if s.targetReceive then [SetStartPt(s'.startPos, s'.endPos)] else [])
  }

  /** Point-cloud handler: a cloud with no data, or from which no point is
      decoded, is dropped; otherwise the map flag is raised and the points
      become the planner's obstacle input. */
  function OnPointCloud(s: State, c: PointCloud): (o: Outcome)
    ensures c.dataSize == 0 || |c.decoded| == 0 ==> o == Outcome(s, [])
    ensures c.dataSize > 0 && |c.decoded| > 0 ==>
              o.state == s.(hasMap := true) && o.calls == [SetInput(c.decoded)]
  {
    if c.dataSize == 0 then Outcome(s, [])
    else if |c.decoded| == 0 then Outcome(s, [])
    else Outcome(s.(hasMap := true), [SetInput(c.decoded)])
  }

  /** Initial plan: reset the tree, set its endpoints, expand it within the
      time limit and fetch the path; only when the planner reports a path is
      the root moved and the trajectory marked as existing. */
  function PlanInitial(cfg: Config, s: State, pathExists: bool): (o: Outcome)
    ensures o.state.trajExist == (s.trajExist || pathExists)
    ensures o.state.(trajExist := s.trajExist) == s
    ensures ResetRoot(cfg.ReplanDistance()) in o.calls <==> pathExists
    ensures |o.calls| >= 6 && o.calls[0] == Reset && o.calls[|o.calls| - 1] == GetTree
    ensures o.calls[1] == SetPt(s.startPos, s.endPos, cfg.bounds, cfg.maxRadius,
                                cfg.maxSamples, cfg.stopHorizon, cfg.commitTime)
    ensures o.calls[2] == SafeRegionExpansion(cfg.pathFindLimit)
  {
    var prefix := [Reset,
                   SetPt(s.startPos, s.endPos, cfg.bounds, cfg.maxRadius,
                         cfg.maxSamples, cfg.stopHorizon, cfg.commitTime),
                   SafeRegionExpansion(cfg.pathFindLimit),
                   GetPath,
                   GetPathExistStatus];
    if pathExists then
      Outcome(s.(trajExist := true), prefix + [ResetRoot(cfg.ReplanDistance()), GetTree])
    else
      Outcome(s, prefix + [GetTree])
  }

  /** Incremental plan: nothing more once global navigation is complete; on
      arrival at the committed target, re-root (or give up the trajectory if
      no path exists); otherwise refine and evaluate the tree. */
  function PlanIncremental(cfg: Config, s: State, r: Report): (o: Outcome)
    ensures |o.calls| >= 2 && o.calls[0] == GetGlobalNaviStatus
    ensures r.globalNaviDone ==> o == Outcome(s, [GetGlobalNaviStatus, GetTree])
    ensures o.state == s || (s.targetArrive && !r.pathExists && o.state == s.(trajExist := false))
    ensures !r.globalNaviDone && s.targetArrive ==>
              o.state == s.(trajExist := s.trajExist && r.pathExists)
              && (ResetRoot(cfg.ReplanDistance()) in o.calls <==> r.pathExists)
    ensures !s.targetArrive || r.globalNaviDone ==> ResetRoot(cfg.ReplanDistance()) !in o.calls
    ensures SafeRegionRefine(cfg.refinePortion) in o.calls <==> !r.globalNaviDone && !s.targetArrive
    ensures SafeRegionEvaluate(cfg.goalPortion) in o.calls <==> !r.globalNaviDone && !s.targetArrive
  {
    if r.globalNaviDone then
      Outcome(s, [GetGlobalNaviStatus, GetTree])
    else if s.targetArrive then
      if !r.pathExists then
        Outcome(s.(trajExist := false), [GetGlobalNaviStatus, GetPathExistStatus])
      else
        Outcome(s, [GetGlobalNaviStatus, GetPathExistStatus,
                    ResetRoot(cfg.ReplanDistance()), GetPath, GetTree])
    else
      Outcome(s, [GetGlobalNaviStatus, SafeRegionRefine(cfg.refinePortion),
                  SafeRegionEvaluate(cfg.goalPortion), GetPath, GetTree])
  }

  /** The planning tick: a no-op until both a target and a map have arrived,
      then an initial plan when no trajectory exists and an incremental plan
      otherwise. */
  function Tick(cfg: Config, s: State, r: Report): (o: Outcome)
    ensures !s.targetReceive || !s.hasMap ==> o == Outcome(s, [])
    ensures s.targetReceive && s.hasMap && !s.trajExist ==>
              |o.calls| > 0 && o.calls[0] == Reset
              && (o.state.trajExist <==> r.pathExists)
              && (ResetRoot(cfg.ReplanDistance()) in o.calls <==> r.pathExists)
    ensures s.targetReceive && s.hasMap && s.trajExist ==>
              |o.calls| > 0 && o.calls[0] == GetGlobalNaviStatus
    ensures o.state.targetReceive == s.targetReceive && o.state.hasMap == s.hasMap
    ensures o.state.targetArrive == s.targetArrive && o.state.endPos == s.endPos
  {
    if !s.targetReceive || !s.hasMap then Outcome(s, [])
    else if !s.trajExist then PlanInitial(cfg, s, r.pathExists)
    else PlanIncremental(cfg, s, r)
  }

  /** Everything that can happen to the node, in the order it happens. */
  datatype Event =
    | Waypoints(msg: PathMsg)
    | Cloud(cloud: PointCloud)
    | Odom(odom: Odometry)
    | Observation(data: seq<real>)
    | PlanTick(report: Report)

  /** Events the source can process without reading out of bounds. */
  predicate Admissible(e: Event) {
    e.Observation? ==> |e.data| >= 3
  }

  predicate AllAdmissible(es: seq<Event>) {
    forall i :: 0 <= i < |es| ==> Admissible(es[i])
  }

  /** One event, processed atomically. */
  function Step(cfg: Config, s: State, e: Event): (o: Outcome)
    requires Admissible(e)
    ensures s.targetReceive ==> o.state.targetReceive
    ensures s.hasMap ==> o.state.hasMap
    ensures !s.targetArrive ==> !o.state.targetArrive
    ensures s.endPos.Some? ==> o.state.endPos.Some?
    ensures o.state.targetReceive && !s.targetReceive ==> e.Waypoints?
    ensures o.state.hasMap && !s.hasMap ==> e.Cloud?
  {
    match e
    case Waypoints(msg) => OnWaypoints(s, msg)
    case Cloud(c) => OnPointCloud(s, c)
    case Odom(m) => OnOdometry(s, m)
    case Observation(data) => OnObservation(s, data)
    case PlanTick(r) => Tick(cfg, s, r)
  }

  /** The state after processing a sequence of events in order. */
  function Run(cfg: Config, s: State, es: seq<Event>): State
    requires AllAdmissible(es)
    decreases |es|
  {
    if |es| == 0 then s
    else
      assert Admissible(es[0]);
      Run(cfg, Step(cfg, s, es[0]).state, es[1..])
  }
}
