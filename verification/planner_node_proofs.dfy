/** Properties of the planning node that hold over whole runs. */
module PlannerNodeProofs {
  import opened Common
  import opened PlannerNode

  /** An inductive invariant of the node, true of the constructed state and
      kept by every event: the arrival flag is down, and a target flag always
      comes with a goal. */
  predicate Inv(s: State) {
    !s.targetArrive && (s.targetReceive ==> s.endPos.Some?)
  }

  /** Once a target has been received, and once a map is present, no
      sequence of events takes either flag back. */
  lemma {:induction false} FlagsNeverReset(cfg: Config, s: State, es: seq<Event>)
    requires AllAdmissible(es)
    ensures s.targetReceive ==> Run(cfg, s, es).targetReceive
    ensures s.hasMap ==> Run(cfg, s, es).hasMap
    decreases |es|
  {
    if |es| > 0 {
      assert Admissible(es[0]);
      FlagsNeverReset(cfg, Step(cfg, s, es[0]).state, es[1..]);
    }
  }

  /** The arrival flag is only ever assigned `false`, so from any state in
      which it is false it stays false for good. */
  lemma {:induction false} ArrivalNeverRaised(cfg: Config, s: State, es: seq<Event>)
    requires AllAdmissible(es)
    requires Inv(s)
    ensures Inv(Run(cfg, s, es))
    decreases |es|
  {
    if |es| > 0 {
      assert Admissible(es[0]);
      ArrivalNeverRaised(cfg, Step(cfg, s, es[0]).state, es[1..]);
    }
  }

  /** Every state reached from construction has the arrival flag false. */
  lemma RunFromInitNeverArrives(cfg: Config, es: seq<Event>)
    requires AllAdmissible(es)
    ensures !Run(cfg, Init, es).targetArrive
    ensures Run(cfg, Init, es).targetReceive ==> Run(cfg, Init, es).endPos.Some?
  {
    ArrivalNeverRaised(cfg, Init, es);
  }

  /** In a state satisfying the invariant the arrival-replan branch of the incremental plan
      never runs: once navigation is not complete, an incremental tick always
      refines and evaluates and leaves the state as it was. In particular a
      tick never clears the trajectory flag. */
  lemma ArrivalReplanUnreachable(cfg: Config, s: State, r: Report)
    requires Inv(s)
    ensures s.targetReceive && s.hasMap && s.trajExist && !r.globalNaviDone ==>
              Tick(cfg, s, r) ==
                Outcome(s, [GetGlobalNaviStatus, SafeRegionRefine(cfg.refinePortion),
                            SafeRegionEvaluate(cfg.goalPortion), GetPath, GetTree])
    ensures s.trajExist ==> Tick(cfg, s, r).state == s
    ensures GetPathExistStatus in Tick(cfg, s, r).calls ==> !s.trajExist
  {
  }

  /** From any state satisfying the invariant, the trajectory flag goes from
      true to false only on a valid waypoint message. */
  lemma TrajectoryClearedOnlyByWaypoint(cfg: Config, s: State, e: Event)
    requires Admissible(e)
    requires Inv(s)
    ensures s.trajExist && !Step(cfg, s, e).state.trajExist ==>
              e.Waypoints? && GoalOf(e.msg).Some?
  {
    if e.PlanTick? {
      ArrivalReplanUnreachable(cfg, s, e.report);
    }
  }

  /** Until both a target and a map have arrived, ticks do nothing at all:
      a run made only of ticks leaves such a state untouched. */
  lemma {:induction false} GatedTicksDoNothing(cfg: Config, s: State, es: seq<Event>)
    requires AllAdmissible(es)
    requires forall i :: 0 <= i < |es| ==> es[i].PlanTick?
    requires !s.targetReceive || !s.hasMap
    ensures Run(cfg, s, es) == s
    decreases |es|
  {
    if |es| > 0 {
      assert es[0].PlanTick? && Admissible(es[0]);
      assert Step(cfg, s, es[0]).state == s;
      GatedTicksDoNothing(cfg, s, es[1..]);
    }
  }
}
