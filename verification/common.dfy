/** Types shared by the planner node and the trajectory server. */
module Common {

  /** A value that may be absent. Eigen vectors that the nodes declare but do
      not initialise are `None` until a handler first writes them. */
  datatype Option<+T> = None | Some(value: T)

  /** A 3-D point or vector; the source's doubles are modelled as reals. */
  datatype Vec3 = Vec3(x: real, y: real, z: real)

  /** A `nav_msgs/Path` message, reduced to the positions of its poses. */
  datatype PathMsg = PathMsg(poses: seq<Vec3>)

  /** The goal a waypoint message carries: its first pose, unless the message
      has no poses or that pose lies below the ground (negative z is the
      "no goal" sentinel). Both nodes apply the same test. */
  function GoalOf(msg: PathMsg): (r: Option<Vec3>)
    ensures r.None? <==> |msg.poses| == 0 || msg.poses[0].z < 0.0
    ensures r.Some? ==> r.value == msg.poses[0] && r.value.z >= 0.0
  {
    if |msg.poses| == 0 || msg.poses[0].z < 0.0 then None else Some(msg.poses[0])
  }
}
