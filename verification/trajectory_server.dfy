/** The trajectory server (`TrajectoryServer`): stores the trajectory the
    planner sends, latches the goal, and every 10 ms decides what command to
    publish. Times are ROS times in integer nanoseconds. Evaluating the
    stored polynomial is outside the model: a published sample is identified
    by the elapsed time at which it would be evaluated. */
module TrajectoryServer {
  import opened Common
  import opened Segments

  /** `rclcpp::Time::max()`: INT32_MAX seconds and 999999999 nanoseconds. */
  const TimeMax: int := 2147483647999999999

  /** The hard-coded initial position of the vehicle. */
  const InitialPosition: Vec3 := Vec3(-2.0, 0.0, 1.5)

  /** The action field of a trajectory message. */
  datatype Action = Add | WarnFinal | OtherAction(code: nat)

  /** A `DesTrajectory` message: action, id, header stamp (ns), one duration
      (ns) per segment, declared segment count and order, and the
      coefficient matrices flattened row-major. */
  datatype DesTrajectory = DesTrajectory(
    action: Action, trajectoryId: int, stamp: int, durations: seq<int>,
    numSegment: int, numOrder: int, matricesFlat: seq<real>)

  /** The server's fields. `numSegments` is declared without an initial value. */
  datatype State = State(
    currentPos: Vec3, endPos: Option<Vec3>, yawTarget: Option<Vec3>,
    targetReceive: bool, goalArrive: bool,
    trajectoryId: int, startTime: int, finalTime: int,
    durations: seq<int>, coefficients: seq<Block>,
    numSegments: Option<int>, order: int,
    hasTrajectory: bool, isAborted: bool, hoverSent: bool)

  /** The state right after construction. */
  const Init: State :=
    State(InitialPosition, None, None, false, false, 0, TimeMax, 0, [], [], None, 6,
          false, false, false)

  /** A published command: a plain hover, a hover at the goal position, or
      the trajectory sampled at `elapsed` nanoseconds after its stamp. */
  datatype Command = Hover | GoalHover(position: Option<Vec3>) | Sample(elapsed: int)

  /** The effect of one timer tick: the new state and what was published. */
  datatype TickOut = TickOut(state: State, published: Option<Command>)

  /** An ADD is accepted unless its id is below the stored one. */
  predicate Accepts(s: State, msg: DesTrajectory) {
    msg.trajectoryId >= s.trajectoryId
  }

  /** The flat array holds a full matrix for every duration; an accepted ADD
      reads that many values whether or not they are there. */
  predicate Readable(msg: DesTrajectory) {
    18 * |msg.durations| <= |msg.matricesFlat|
  }

  /** ADD: a message with a smaller id is ignored; otherwise the trajectory
      is replaced, the server is re-armed and the end time is the stamp plus
      every duration. */
  function HandleAdd(s: State, msg: DesTrajectory): (r: State)
    requires Accepts(s, msg) ==> Readable(msg)
    ensures msg.trajectoryId < s.trajectoryId ==> r == s
    ensures msg.trajectoryId >= s.trajectoryId ==>
              && r.hasTrajectory && !r.isAborted && !r.hoverSent
              && r.trajectoryId == msg.trajectoryId
              && r.startTime == msg.stamp
              && r.finalTime == msg.stamp + Sum(msg.durations)
              && r.durations == msg.durations
              && |r.coefficients| == |msg.durations|
              && (forall i, row, col :: 0 <= i < |msg.durations| && 0 <= row < 3 && 0 <= col < 6 ==>
                    WellShaped(r.coefficients[i])
                    && r.coefficients[i][row][col] == msg.matricesFlat[18 * i + 6 * row + col])
              && r.numSegments == Some(msg.numSegment) && r.order == msg.numOrder
    ensures r.trajectoryId >= s.trajectoryId
    ensures r.currentPos == s.currentPos && r.endPos == s.endPos && r.yawTarget == s.yawTarget
    ensures r.targetReceive == s.targetReceive && r.goalArrive == s.goalArrive
  {
    if msg.trajectoryId < s.trajectoryId then s
    else
      s.(hasTrajectory := true, isAborted := false, hoverSent := false,
         trajectoryId := msg.trajectoryId,
         startTime := msg.stamp,
         finalTime := msg.stamp + Sum(msg.durations),
         durations := msg.durations,
         coefficients := Slice(msg.matricesFlat, |msg.durations|),
         numSegments := Some(msg.numSegment), order := msg.numOrder)
  }

  /** Any action other than ADD or WARN_FINAL aborts the trajectory. */
  function HandleAbort(s: State): (r: State)
    ensures !r.hasTrajectory && r.isAborted
    ensures r.(hasTrajectory := s.hasTrajectory, isAborted := s.isAborted) == s
  {
    s.(hasTrajectory := false, isAborted := true)
  }

  /** WARN_FINAL: the planner has reached the goal. */
  function HandleFinal(s: State): (r: State)
    ensures r.goalArrive
    ensures r.(goalArrive := s.goalArrive) == s
  {
    s.(goalArrive := true)
  }

  /** Dispatch on the message's action. */
  function OnTrajectory(s: State, msg: DesTrajectory): (r: State)
    requires msg.action.Add? && Accepts(s, msg) ==> Readable(msg)
    ensures msg.action.Add? ==> r == HandleAdd(s, msg)
    ensures msg.action.WarnFinal? ==> r == s.(goalArrive := true)
    ensures msg.action.OtherAction? ==> r == s.(hasTrajectory := false, isAborted := true)
    ensures r.trajectoryId >= s.trajectoryId
    ensures s.goalArrive ==> r.goalArrive
  {
    match msg.action
    case Add => HandleAdd(s, msg)
    case WarnFinal => HandleFinal(s)
    case OtherAction(_) => HandleAbort(s)
  }

  /** Goal handler: the first valid goal is kept; every later message, and
      every malformed one, is ignored. */
  function OnGoal(s: State, msg: PathMsg): (r: State)
    ensures s.targetReceive ==> r == s
    ensures !s.targetReceive && (|msg.poses| == 0 || msg.poses[0].z < 0.0) ==> r == s
    ensures !s.targetReceive && |msg.poses| > 0 && msg.poses[0].z >= 0.0 ==>
              r == s.(endPos := Some(msg.poses[0]), targetReceive := true)
  {
    if s.targetReceive then s
    else
      match GoalOf(msg)
      case None => s
      case Some(goal) => s.(endPos := Some(goal), targetReceive := true)
  }

  /** Yaw-target handler: stores the first valid pose as the yaw target, but
      only while no goal has been received; it never sets the goal flag. */
  function OnYawTarget(s: State, msg: PathMsg): (r: State)
    ensures s.targetReceive ==> r == s
    ensures !s.targetReceive && (|msg.poses| == 0 || msg.poses[0].z < 0.0) ==> r == s
    ensures !s.targetReceive && |msg.poses| > 0 && msg.poses[0].z >= 0.0 ==>
              r == s.(yawTarget := Some(msg.poses[0]))
  {
    if s.targetReceive then s
    else
      match GoalOf(msg)
      case None => s
      case Some(p) => s.(yawTarget := Some(p))
  }

  /** Odometry handler: only the current position is recorded. */
  function OnOdometry(s: State, position: Vec3): (r: State)
    ensures r.currentPos == position
    ensures r.(currentPos := s.currentPos) == s
  {
    s.(currentPos := position)
  }

  /** The 10 ms command tick at time `now`. Without a live trajectory the
      hover command goes out once and is then latched off. With the goal
      reached, every tick hovers at the goal. Otherwise the elapsed time
      since the stamp is compared with the ABSOLUTE end time, exactly as the
      source does: past it the trajectory is dropped silently, else it is
      sampled at the elapsed time. */
  function CommandTick(s: State, now: int): (o: TickOut)
    ensures o.published == Some(Hover) ==> !s.hoverSent && o.state.hoverSent
    ensures (!s.hasTrajectory || s.isAborted) ==>
              o.state.hoverSent && o.state.(hoverSent := s.hoverSent) == s
              && (o.published.Some? <==> !s.hoverSent)
              && (o.published.Some? ==> o.published == Some(Hover))
    ensures s.hasTrajectory && !s.isAborted && s.goalArrive ==>
              o == TickOut(s, Some(GoalHover(s.endPos)))
    ensures s.hasTrajectory && !s.isAborted && !s.goalArrive && now - s.startTime > s.finalTime ==>
              o == TickOut(s.(hasTrajectory := false), None)
    ensures s.hasTrajectory && !s.isAborted && !s.goalArrive && now - s.startTime <= s.finalTime ==>
              o == TickOut(s, Some(Sample(now - s.startTime)))
  {
    if !s.hasTrajectory || s.isAborted then
      if s.hoverSent then TickOut(s, None)
      else TickOut(s.(hoverSent := true), Some(Hover))
    else if s.goalArrive then
      TickOut(s, Some(GoalHover(s.endPos)))
    else
      var elapsed := now - s.startTime;
      if elapsed > s.finalTime then TickOut(s.(hasTrajectory := false), None)
      else TickOut(s, Some(Sample(elapsed)))
  }

  /** Everything that can happen to the server, in the order it happens. */
  datatype Event =
    | Trajectory(msg: DesTrajectory)
    | Goal(goal: PathMsg)
    | YawTarget(target: PathMsg)
    | Odometry(position: Vec3)
    | Timer(now: int)

  /** The event is an ADD that the state `s` accepts, re-arming the hover latch. */
  predicate Rearms(s: State, e: Event) {
    e.Trajectory? && e.msg.action.Add? && Accepts(s, e.msg)
  }

  /** Every ADD the server accepts along the run, in the state in which it
      arrives, carries a full coefficient array. ADDs rejected by id are
      dropped before anything is read and may carry anything. */
  predicate RunAdmissible(s: State, es: seq<Event>)
    decreases |es|
  {
    |es| == 0 ||
    ((Rearms(s, es[0]) ==> Readable(es[0].msg))
     && RunAdmissible(Step(s, es[0]).state, es[1..]))
  }

  /** One event, processed atomically; only ticks publish. */
  function Step(s: State, e: Event): (o: TickOut)
    requires Rearms(s, e) ==> Readable(e.msg)
    ensures o.state.trajectoryId >= s.trajectoryId
    ensures s.goalArrive ==> o.state.goalArrive
    ensures s.targetReceive ==> o.state.targetReceive
    ensures s.targetReceive ==> o.state.endPos == s.endPos && o.state.yawTarget == s.yawTarget
    ensures s.hoverSent && !Rearms(s, e) ==> o.state.hoverSent
    ensures o.published == Some(Hover) ==> !s.hoverSent && o.state.hoverSent
    ensures o.published.Some? ==> e.Timer?
  {
    match e
    case Trajectory(msg) => TickOut(OnTrajectory(s, msg), None)
    case Goal(msg) => TickOut(OnGoal(s, msg), None)
    case YawTarget(msg) => TickOut(OnYawTarget(s, msg), None)
    case Odometry(p) => TickOut(OnOdometry(s, p), None)
    case Timer(now) => CommandTick(s, now)
  }

  /** The final state and the commands published over a run. */
  datatype Trace = Trace(state: State, published: seq<Command>)

  function Run(s: State, es: seq<Event>): Trace
    requires RunAdmissible(s, es)
    decreases |es|
  {
    if |es| == 0 then Trace(s, [])
    else
      var o := Step(s, es[0]);
      var rest := Run(o.state, es[1..]);
      Trace(rest.state,
            (if o.published.Some? then [o.published.value] else []) + rest.published)
  }
}
