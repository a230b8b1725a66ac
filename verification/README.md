# Replanning node and trajectory server, as event-driven state machines

This project models the two small event-driven state machines at the
centre of the ROS 2 receding-horizon planner in `rrt_path_finder`:

- **The planning node** (`PointCloudPlanner`, `rrt_node.cpp`). Its message
  handlers for waypoints, point clouds, odometry and the simulation-only
  observation vector update four flags: target received, map present,
  trajectory exists and target arrived. They also update the goal and the
  robot's start state. A fixed-rate planning tick then does one of three
  things: nothing, an initial plan, or an incremental plan. The
  sampling-tree planner (`safeRegionRrtStar`) is an oracle. Every call the
  node makes on it is recorded, in order, as a `PlannerCall`. Its two
  answers that the node branches on, path exists and global navigation
  complete, are passed to the tick as a `Report`.
- **The trajectory server** (`TrajectoryServer`, `trajectory_server.cpp`).
  It accepts ADD, WARN_FINAL and other (abort) trajectory messages, a
  one-shot goal and yaw target, and odometry. Every 10 ms its command tick
  publishes one of: a plain hover (latched to once), a hover at the goal, a
  sample of the stored trajectory at an elapsed time, or nothing.
  Trajectory messages carry one duration per segment and a flat array of
  3x6 row-major coefficient matrices. `Segments` models how that array is
  sliced and how the end time is summed.
- **The scalar helpers** `saturate` and `angle_wrap` (`Angles`).

Every handler is a pure function from the old state and the message to the
new state, plus the planner calls or the command it emits. `Step` and `Run`
fold events into runs, and the proof modules state what holds over whole
runs.

Modelling choices:
- Doubles are `real`.
- ROS times and durations are integer nanoseconds.
- Vectors the source declares but never initialises (`_start_pos`,
  `_end_pos`, `end_pos`, `yaw_target`, `num_segments`) are `None` until
  first written.

Behaviour the model keeps literally, as the code has it:
- The server compares the relative elapsed time `now - start` with the
  absolute end time `start + sum(durations)`, not with the total duration.
  `SampleWindowIsAbsolute` and `SamplesPastTotalDuration` state the
  consequence: with a positive stamp, the trajectory is sampled beyond its
  last segment.
- `_is_target_arrive` is only ever assigned `false`. The arrival-replan
  branch of the incremental plan is therefore unreachable
  (`ArrivalReplanUnreachable`). A tick never clears the trajectory flag; only
  a valid waypoint does.
- `_replan_distance` is read from the `sensing_range` parameter.
  `setPt` is passed `max_radius`, `max_samples`, `stop_horizon` and
  `commit_time` in its last four argument positions. Refinement uses
  `refine_portion` and evaluation uses `goal_portion`.
- `angle_wrap` returns values in the closed range [-PI, PI]. An input of
  exactly -PI is left as it is, so the range is not the half-open
  (-PI, PI].
- `saturate` applies the lower bound first and the upper bound last. When
  the bounds are crossed it returns the upper bound.
- From construction, a WARN_FINAL followed by an accepted ADD, with no goal
  message received before the next tick, makes that tick publish a goal
  hover at a position that was never written (`GoalHoverWithoutGoal`).
  Without a live trajectory the tick publishes a plain hover instead, and a
  goal that arrives in between writes the position.

## Model

| member | source | states |
|---|---|---|
| Common.GoalOf | ros2/src/rrt_path_finder/src/rrt_node.cpp:162-167 | a waypoint message yields a goal exactly when it has a pose whose z is not negative, and the goal is that first pose |
| PlannerNode.OnWaypoints | ros2/src/rrt_path_finder/src/rrt_node.cpp:160-173 | an empty or negative-z message leaves the whole state unchanged; a valid one sets the goal to the first pose, raises target-received, clears arrival and trajectory-exists, keeps everything else, and makes no planner call |
| PlannerNode.OnObservation | ros2/src/rrt_path_finder/src/rrt_node.cpp:182-188 | the start position becomes the first three entries of the vector and nothing else changes |
| PlannerNode.OnOdometry | ros2/src/rrt_path_finder/src/rrt_node.cpp:189-208 | start position, velocity and (angular-twist) acceleration are recorded and no flag changes; the planner gets the new start and the goal only once a target was received |
| PlannerNode.OnPointCloud | ros2/src/rrt_path_finder/src/rrt_node.cpp:210-238 | a cloud with no data or no decoded points changes nothing and calls nothing; otherwise the map flag is raised and the decoded points are handed to the planner |
| PlannerNode.PlanInitial | ros2/src/rrt_path_finder/src/rrt_node.cpp:385-417 | the tree is reset, its endpoints set and expanded with the path-find limit; the trajectory flag becomes true exactly when a path exists, and the root is moved only in that case |
| PlannerNode.PlanIncremental | ros2/src/rrt_path_finder/src/rrt_node.cpp:420-468 | with global navigation complete nothing changes and no refine or evaluate call is made; on arrival with navigation incomplete, trajectory-exists is cleared exactly when no path exists and the root is moved exactly when one does; that is the only possible flag change; refine and evaluate run exactly when navigation is incomplete and the target was not reached |
| PlannerNode.Tick | ros2/src/rrt_path_finder/src/rrt_node.cpp:471-489 | without a target or without a map the tick changes nothing and calls nothing; otherwise it starts an initial plan exactly when no trajectory exists (after which trajectory-exists holds iff a path was found) and an incremental plan otherwise |
| PlannerNode.Step | ros2/src/rrt_path_finder/src/rrt_node.cpp:154-238 | no event lowers target-received or has-map, none raises the arrival flag; only a waypoint raises target-received and only a cloud raises has-map |
| PlannerNodeProofs.FlagsNeverReset | ros2/src/rrt_path_finder/src/rrt_node.cpp:156-234 | along any run, target-received and has-map stay true once true |
| PlannerNodeProofs.ArrivalNeverRaised | ros2/src/rrt_path_finder/src/rrt_node.cpp:155-171 | along any run from a state without arrival, arrival stays false and target-received always comes with a goal |
| PlannerNodeProofs.RunFromInitNeverArrives | ros2/src/rrt_path_finder/src/rrt_node.cpp:152-157 | every state reached from construction has the arrival flag false and a goal whenever a target was received |
| PlannerNodeProofs.ArrivalReplanUnreachable | ros2/src/rrt_path_finder/src/rrt_node.cpp:428-449 | in states satisfying the invariant (arrival down, target implies goal) an incremental tick with navigation incomplete always refines and evaluates and changes nothing; a tick with a trajectory never changes the state; the path-exists query happens only in an initial plan |
| PlannerNodeProofs.TrajectoryClearedOnlyByWaypoint | ros2/src/rrt_path_finder/src/rrt_node.cpp:428-434 | in states satisfying that invariant, trajectory-exists goes from true to false only on a valid waypoint message |
| PlannerNodeProofs.GatedTicksDoNothing | ros2/src/rrt_path_finder/src/rrt_node.cpp:473-479 | any number of ticks before a target and a map are both present leave the state unchanged |
| Segments.BlockAt | ros2/src/rrt_path_finder/src/trajectory_server.cpp:172-173 | matrix i is 3x6 with cell (row, col) equal to entry 18i + 6row + col of the flat array |
| Segments.Slice | ros2/src/rrt_path_finder/src/trajectory_server.cpp:170-177 | n matrices are read, each well shaped, the i-th being the row-major matrix at offset 18i |
| Segments.FlattenSlice | ros2/src/rrt_path_finder/src/trajectory_server.cpp:168-176 | packing the sliced matrices again reproduces exactly the first 18n entries of the array |
| Segments.SliceFlatten | ros2/src/rrt_path_finder/src/trajectory_server.cpp:168-176 | slicing the row-major packing of well-shaped matrices gives the matrices back |
| Segments.LoadSegments | ros2/src/rrt_path_finder/src/trajectory_server.cpp:159-183 | the loop yields the start time plus the sum of all durations and exactly one matrix per duration, the row-major slices of the array |
| Angles.Saturate | ros2/src/rrt_path_finder/src/trajectory_server.cpp:208-211 | with ordered bounds the result lies in them and equals the input when the input does; below the lower bound the lower bound, above the upper the upper bound; crossed bounds give the upper bound |
| Angles.SaturateIdempotent | ros2/src/rrt_path_finder/src/trajectory_server.cpp:208-211 | clamping an already clamped value changes nothing |
| Angles.AngleWrap | ros2/src/rrt_path_finder/src/trajectory_server.cpp:213-217 | the result lies in [-PI, PI], differs from the input by a whole number of turns, is the input itself when that is already in range; inputs above PI lose turns and land in (-PI, PI], inputs below -PI gain turns and land in [-PI, PI), so the result is unique |
| TrajectoryServer.HandleAdd | ros2/src/rrt_path_finder/src/trajectory_server.cpp:146-194 | an id below the stored one changes nothing; otherwise the trajectory is live, not aborted, the hover latch re-armed, the id stored, the end time is the stamp plus the sum of durations and there is one row-major matrix per duration; goal fields are untouched and ids never decrease |
| TrajectoryServer.HandleAbort | ros2/src/rrt_path_finder/src/trajectory_server.cpp:196-201 | the trajectory is dropped and the server aborted, nothing else changes |
| TrajectoryServer.HandleFinal | ros2/src/rrt_path_finder/src/trajectory_server.cpp:203-206 | only the goal-arrived flag is set |
| TrajectoryServer.OnTrajectory | ros2/src/rrt_path_finder/src/trajectory_server.cpp:125-144 | ADD goes to the add handler, WARN_FINAL only sets goal-arrived, any other action drops the trajectory and aborts; ids never decrease and goal-arrived is never cleared |
| TrajectoryServer.OnGoal | ros2/src/rrt_path_finder/src/trajectory_server.cpp:99-110 | after a goal was accepted, or for an empty or negative-z message, nothing changes; otherwise the first pose becomes the goal and the goal is latched |
| TrajectoryServer.OnYawTarget | ros2/src/rrt_path_finder/src/trajectory_server.cpp:112-123 | after a goal was accepted, or for an empty or negative-z message, nothing changes; otherwise only the yaw target is set to the first pose |
| TrajectoryServer.OnOdometry | ros2/src/rrt_path_finder/src/trajectory_server.cpp:88-97 | only the current position changes |
| TrajectoryServer.CommandTick | ros2/src/rrt_path_finder/src/trajectory_server.cpp:255-340 | without a live trajectory a hover goes out iff none was sent and the latch is then set; with the goal reached every tick hovers at the goal; otherwise past the absolute end time the trajectory is dropped silently, else it is sampled at the time since the stamp |
| TrajectoryServer.Step | ros2/src/rrt_path_finder/src/trajectory_server.cpp:99-206 | no event lowers the id, clears goal-arrived or changes an accepted goal; only an accepted ADD re-arms the hover latch; only ticks publish |
| TrajectoryServerProofs.RejectedAddIgnored | ros2/src/rrt_path_finder/src/trajectory_server.cpp:148-152 | an ADD with an id below the stored one may occur in a run whatever its coefficient array holds, and it changes nothing and publishes nothing |
| TrajectoryServerProofs.TrajectoryIdsNonDecreasing | ros2/src/rrt_path_finder/src/trajectory_server.cpp:148-158 | along any run the stored trajectory id never decreases |
| TrajectoryServerProofs.HoverAtMostOnce | ros2/src/rrt_path_finder/src/trajectory_server.cpp:257-273 | along a run with no accepted ADD at most one plain hover is published, and none if the latch was already set |
| TrajectoryServerProofs.GoalLatchedOnce | ros2/src/rrt_path_finder/src/trajectory_server.cpp:101-116 | once a goal is accepted, no later event changes the goal or the yaw target |
| TrajectoryServerProofs.GoalArrivalSticks | ros2/src/rrt_path_finder/src/trajectory_server.cpp:203-206 | once set, goal-arrived stays set along any run |
| TrajectoryServerProofs.GoalHoverEveryTick | ros2/src/rrt_path_finder/src/trajectory_server.cpp:275-292 | with a live trajectory and the goal reached, any run of ticks publishes one goal hover per tick and leaves the state unchanged |
| TrajectoryServerProofs.SampleWindowIsAbsolute | ros2/src/rrt_path_finder/src/trajectory_server.cpp:295-307 | after an accepted ADD stamped t0, a tick samples iff now - t0 is at most t0 plus the total duration, and publishes nothing otherwise |
| TrajectoryServerProofs.SamplesPastTotalDuration | ros2/src/rrt_path_finder/src/trajectory_server.cpp:295-304 | with a positive stamp the tick samples at an elapsed time beyond the total duration |
| TrajectoryServerProofs.GoalHoverWithoutGoal | ros2/src/rrt_path_finder/src/trajectory_server.cpp:275-292 | from construction, WARN_FINAL then an accepted ADD then a tick, with no goal message, publishes a goal hover at an unwritten position |

## Left out

- Node construction, parameter declaration, publishers, subscribers, timers and `main` are ROS plumbing. The parameters are a `Config` argument with no default values, and the 10 Hz and 10 ms rates are not modelled.
- TF2 transforms and `pcl::fromROSMsg` are foreign library calls. A cloud is modelled as its data size plus the points the decoder returns.
- `visRrt`, `publishCorridorVisualization`, `publishRRTWaypoints`, `matrixToVector`, `radiusMatrixToVector`, the published message headers and the console logging are output marshalling. Only the planner calls they make (`GetTree`, `GetPath`) are recorded.
- `safeRegionRrtStar` internals (expansion, refine, evaluate, `resetRoot`, `getPath`, `setParam`) are an oracle. Its header is not part of this model.
- The corridor sweep and prune and the trajectory optimizer are not part of this model; their code is in files this model does not cover.
- `Trajectory<5>` evaluation (`getPos`, `getVel`, `getAcc`, `getJer`, `setParameters`, `clear`) is an external floating-point type. A sample is identified by its elapsed time, and the stored trajectory by its durations and matrices.
- `yaw` and `getDesiredYaw` use floating-point `atan2`, `copysign` and filtering, and their only call site is commented out.
- Concurrency between callbacks and timers is not modelled. Each handler is one atomic transition.
- IEEE rounding and NaN are not modelled. In the source, a NaN altitude passes the `z < 0` test and would be accepted.
- Durations are integer nanoseconds. The source converts double seconds to nanoseconds, and elapsed and end times are compared as nanoseconds rather than as doubles in seconds.
- `rclcpp::Time` overflow and clock-type exceptions are not modelled.
- The message field types of `trajectory_id` and `action` are not visible. Both are unbounded integers here, so a signed/unsigned comparison is not modelled.
- TrajectoryServer.HandleAdd: an accepted ADD whose flat array holds fewer than 18 entries per duration is an out-of-bounds read in the source. It is excluded by a precondition, not modelled. Runs exclude it only for ADDs accepted in the state where they arrive; rejected ADDs may carry any array.
- Angles.AngleWrap: on doubles, the first loop never ends for an infinite input and stalls once subtracting 2*PI no longer changes a very large input; over reals every input terminates.
- PlannerNode.OnObservation: a vector with fewer than three entries is an out-of-bounds read in the source. It is excluded by a precondition.
