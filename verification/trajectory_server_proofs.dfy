/** Properties of the trajectory server that hold over whole runs. */
module TrajectoryServerProofs {
  import opened Common
  import opened Segments
  import opened TrajectoryServer

  /** The run contains no ADD that would be accepted when it arrives. */
  predicate NoRearm(s: State, es: seq<Event>)
    decreases |es|
  {
    |es| == 0 ||
    (!Rearms(s, es[0]) && NoRearm(Step(s, es[0]).state, es[1..]))
  }

  /** Number of plain hover commands in a sequence of published commands. */
  function HoverCount(cs: seq<Command>): nat
    decreases |cs|
  {
    if |cs| == 0 then 0 else (if cs[0] == Hover then 1 else 0) + HoverCount(cs[1..])
  }

  lemma {:induction false} HoverCountAppend(a: seq<Command>, b: seq<Command>)
    ensures HoverCount(a + b) == HoverCount(a) + HoverCount(b)
    decreases |a|
  {
    if |a| == 0 {
      assert a + b == b;
    } else {
      assert (a + b)[0] == a[0];
      assert (a + b)[1..] == a[1..] + b;
      HoverCountAppend(a[1..], b);
    }
  }

  /** An ADD whose id is below the stored one is dropped before its
      coefficients are read, whatever its array holds: it may occur in a run
      and changes nothing. */
  lemma RejectedAddIgnored(s: State, msg: DesTrajectory)
    requires msg.action.Add? && msg.trajectoryId < s.trajectoryId
    ensures RunAdmissible(s, [Trajectory(msg)])
    ensures Run(s, [Trajectory(msg)]) == Trace(s, [])
  {
    assert [Trajectory(msg)][1..] == [];
  }

  /** Stored trajectory ids never decrease. */
  lemma {:induction false} TrajectoryIdsNonDecreasing(s: State, es: seq<Event>)
    requires RunAdmissible(s, es)
    ensures Run(s, es).state.trajectoryId >= s.trajectoryId
    decreases |es|
  {
    if |es| > 0 {
      TrajectoryIdsNonDecreasing(Step(s, es[0]).state, es[1..]);
    }
  }

  /** The hover latch: between two accepted ADDs at most one plain hover
      command is published, and none if one was already sent. */
  lemma {:induction false} HoverAtMostOnce(s: State, es: seq<Event>)
    requires RunAdmissible(s, es)
    requires NoRearm(s, es)
    ensures HoverCount(Run(s, es).published) <= (if s.hoverSent then 0 else 1)
    decreases |es|
  {
    if |es| > 0 {
      var o := Step(s, es[0]);
      var head := if o.published.Some? then [o.published.value] else [];
      HoverAtMostOnce(o.state, es[1..]);
      HoverCountAppend(head, Run(o.state, es[1..]).published);
      assert HoverCount(head) == (if o.published == Some(Hover) then 1 else 0) by {
        if o.published.Some? {
          assert head[1..] == [];
        }
      }
    }
  }

  /** The goal is accepted only once: after it, neither the goal nor the
      yaw target changes again, whatever arrives. */
  lemma {:induction false} GoalLatchedOnce(s: State, es: seq<Event>)
    requires RunAdmissible(s, es)
    requires s.targetReceive
    ensures Run(s, es).state.targetReceive
    ensures Run(s, es).state.endPos == s.endPos
    ensures Run(s, es).state.yawTarget == s.yawTarget
    decreases |es|
  {
    if |es| > 0 {
      GoalLatchedOnce(Step(s, es[0]).state, es[1..]);
    }
  }

  /** WARN_FINAL's flag is never cleared. */
  lemma {:induction false} GoalArrivalSticks(s: State, es: seq<Event>)
    requires RunAdmissible(s, es)
    requires s.goalArrive
    ensures Run(s, es).state.goalArrive
    decreases |es|
  {
    if |es| > 0 {
      GoalArrivalSticks(Step(s, es[0]).state, es[1..]);
    }
  }

  /** With a live trajectory and the goal reached, every tick publishes a
      hover at the goal position and changes nothing. */
  lemma {:induction false} GoalHoverEveryTick(s: State, nows: seq<int>)
    requires s.hasTrajectory && !s.isAborted && s.goalArrive
    ensures RunAdmissible(s, seq(|nows|, i requires 0 <= i < |nows| => Timer(nows[i])))
    ensures Run(s, seq(|nows|, i requires 0 <= i < |nows| => Timer(nows[i])))
              == Trace(s, seq(|nows|, _ => GoalHover(s.endPos)))
    decreases |nows|
  {
    var es := seq(|nows|, i requires 0 <= i < |nows| => Timer(nows[i]));
    if |nows| > 0 {
      var rest := seq(|nows| - 1, i requires 0 <= i < |nows| - 1 => Timer(nows[1..][i]));
      assert es[1..] == rest;
      GoalHoverEveryTick(s, nows[1..]);
      assert [GoalHover(s.endPos)] + seq(|nows| - 1, _ => GoalHover(s.endPos))
          == seq(|nows|, _ => GoalHover(s.endPos));
    }
  }

  /** After an accepted ADD stamped `t0`, a tick samples exactly while the
      time since `t0` does not exceed `t0` plus the total duration: the
      relative elapsed time is measured against the absolute end time. */
  lemma SampleWindowIsAbsolute(s: State, msg: DesTrajectory, now: int)
    requires Accepts(s, msg) && Readable(msg)
    requires !s.goalArrive
    ensures var o := CommandTick(HandleAdd(s, msg), now);
            (o.published == Some(Sample(now - msg.stamp)) <==>
               now - msg.stamp <= msg.stamp + Sum(msg.durations))
            && (o.published.None? <==> now - msg.stamp > msg.stamp + Sum(msg.durations))
  {
  }

  /** Consequently, with a positive stamp, the server samples the trajectory
      at times past its total duration. */
  lemma SamplesPastTotalDuration(s: State, msg: DesTrajectory)
    requires Accepts(s, msg) && Readable(msg)
    requires !s.goalArrive
    requires msg.stamp > 0
    ensures var now := msg.stamp + msg.stamp + Sum(msg.durations);
            var o := CommandTick(HandleAdd(s, msg), now);
            o.published.Some? && o.published.value.Sample?
            && o.published.value.elapsed > Sum(msg.durations)
  {
  }

  /** From construction, a WARN_FINAL, then an accepted ADD, then a tick,
      with no goal message before the tick: the tick publishes a goal hover
      although no goal position was ever written. */
  lemma GoalHoverWithoutGoal()
    ensures var add := DesTrajectory(Add, 0, 0, [], 0, 6, []);
            var fin := DesTrajectory(WarnFinal, 0, 0, [], 0, 6, []);
            RunAdmissible(Init, [Trajectory(fin), Trajectory(add), Timer(0)])
    ensures var add := DesTrajectory(Add, 0, 0, [], 0, 6, []);
            var fin := DesTrajectory(WarnFinal, 0, 0, [], 0, 6, []);
            Run(Init, [Trajectory(fin), Trajectory(add), Timer(0)]).published
              == [GoalHover(None)]
  {
    var add := DesTrajectory(Add, 0, 0, [], 0, 6, []);
    var fin := DesTrajectory(WarnFinal, 0, 0, [], 0, 6, []);
    var es := [Trajectory(fin), Trajectory(add), Timer(0)];
    var s1 := Init.(goalArrive := true);
    assert Step(Init, es[0]).state == s1;
    var s2 := HandleAdd(s1, add);
    assert s2.hasTrajectory && !s2.isAborted && s2.goalArrive && s2.endPos == None;
    assert Step(s1, es[1]) == TickOut(s2, None);
    assert Step(s2, es[2]) == TickOut(s2, Some(GoalHover(None)));
    assert es[1..] == [Trajectory(add), Timer(0)];
    assert es[1..][1..] == [Timer(0)];
    assert RunAdmissible(s2, [Timer(0)]);
    assert RunAdmissible(s1, es[1..]);
    assert RunAdmissible(Init, es);
    assert Run(s2, [Timer(0)]).published == [GoalHover(None)];
    assert Run(s1, es[1..]).published == [GoalHover(None)];
  }
}
