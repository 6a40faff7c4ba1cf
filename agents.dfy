/**
 * RVOAgent: the agent's identity, its goal test and dead reckoning, the
 * preferred velocity, the expectancy rule of pattern-based motion, and the
 * two phases of a simulation step. SenseThink only decides (it writes the
 * pending chosenVelocity, prefVelocity and the current goal point); Act
 * commits the chosen velocity and moves the agent.
 */
module Agents {
  import opened Wrappers
  import opened Geometry
  import opened Settings
  import opened Scoring
  import opened Perception
  import opened Environment
  import opened Navigation

  // ---------------------------------------------------------------- identity

  const TWO_TO_31: int := 0x8000_0000
  const TWO_TO_32: int := 0x1_0000_0000

  predicate IsInt32(x: int)
  {
    -TWO_TO_31 <= x < TWO_TO_31
  }

  /** Java int arithmetic: the two's-complement wrap-around of x. */
  function Wrap32(x: int): (r: int)
    ensures IsInt32(r)
    ensures IsInt32(x) ==> r == x
  {
    (x + TWO_TO_31) % TWO_TO_32 - TWO_TO_31
  }

  /** hashCode: hash = 3; hash = 67 * hash + id, in int arithmetic. */
  function HashCode(id: int): (r: int)
    ensures IsInt32(r)
  {
    Wrap32(67 * 3 + id)
  }

  /**
   * hashCode agrees with equals, which compares ids: two agents with int
   * ids have the same hash code exactly when they have the same id.
   */
  lemma HashCodeMatchesEquals(a: int, b: int)
    requires IsInt32(a) && IsInt32(b)
    ensures HashCode(a) == HashCode(b) <==> a == b
  {
    if HashCode(a) == HashCode(b) {
      var x, y := 201 + a + TWO_TO_31, 201 + b + TWO_TO_31;
      assert 0 <= x < 2 * TWO_TO_32 && 0 <= y < 2 * TWO_TO_32;
      var qx := if x >= TWO_TO_32 then 1 else 0;
      var qy := if y >= TWO_TO_32 then 1 else 0;
      assert x % TWO_TO_32 == x - qx * TWO_TO_32;
      assert y % TWO_TO_32 == y - qy * TWO_TO_32;
    }
  }

  /**
   * getAgentWithId: the first agent of the list with the id, None (null)
   * when no agent has it.
   */
  function FindById(agents: seq<Neighbour>, id: int): (r: Option<Neighbour>)
    ensures r.None? <==> forall i :: 0 <= i < |agents| ==> agents[i].id != id
    ensures r.Some? ==> exists i :: 0 <= i < |agents| && agents[i] == r.value && r.value.id == id
                                    && forall j :: 0 <= j < i ==> agents[j].id != id
  {
    if agents == [] then None
    else if agents[0].id == id then Some(agents[0])
    else
      var r := FindById(agents[1..], id);
      assert forall i :: 0 < i < |agents| ==> agents[i] == agents[1..][i - 1];
      r
  }

  /** The for-each loop of getAgentWithId. */
  method GetAgentWithId(agents: seq<Neighbour>, id: int) returns (r: Option<Neighbour>)
    ensures r == FindById(agents, id)
  {
    var i := 0;
    while i < |agents|
      invariant i <= |agents|
      invariant FindById(agents[i..], id) == FindById(agents, id)
    {
      if agents[i].id == id {
        return Some(agents[i]);
      }
      assert agents[i..][1..] == agents[i + 1..];
      i := i + 1;
    }
    return None;
  }

  // ------------------------------------------------------------- commitment

  /** WorkingMemory.strategymatchingCommitment */
  datatype Commitment = LowCommitment | MidCommitment | HighCommitment

  /** setCommitmentLevel's switch: 1 low, 2 mid, 3 high, anything else mid. */
  function CommitmentFor(number: int): (r: Commitment)
    ensures r == LowCommitment <==> number == 1
    ensures r == HighCommitment <==> number == 3
    ensures r == MidCommitment <==> number != 1 && number != 3
  {
    match number
    case 1 => LowCommitment
    case 2 => MidCommitment
    case 3 => HighCommitment
    case _ => MidCommitment
  }

  // ------------------------------------------------------------ goal test

  function Abs(x: real): real { if x < 0.0 then -x else x }

  /**
   * reachedGoal: false without a goal; in pattern-based motion, within a
   * radius of the goal horizontally; otherwise at distance less than a
   * radius (decided exactly on squares).
   */
  function GoalReached(s: Settings, position: Vec, goal: Option<Vec>): (r: bool)
    ensures goal.None? ==> !r
  {
    match goal
    case None => false
    case Some(g) =>
      if s.model == PatternBasedMotion then Abs(position.x - g.x) < s.radius
      else ShorterThan(Sub(position, g), s.radius)
  }

  /** With a sound square root the test outside pattern-based motion is distance < RADIUS. */
  lemma GoalReachedIsDistance(n: Numerics, s: Settings, position: Vec, g: Vec)
    requires s.model != PatternBasedMotion
    requires SqrtSoundAt(n, SqLength(Sub(position, g)))
    ensures GoalReached(s, position, Some(g)) <==> Distance(n, position, g) < s.radius
  {
    ShorterThanIsLength(n, Sub(position, g), s.radius);
  }

  /** Being within a radius of the goal implies being within a radius of it horizontally. */
  lemma GoalReachedHorizontally(s: Settings, position: Vec, g: Vec)
    requires ShorterThan(Sub(position, g), s.radius)
    ensures Abs(position.x - g.x) < s.radius
  {
    var d := Sub(position, g);
    assert d.y * d.y >= 0.0 by { SquareNonNegative(d.y); }
    if Abs(d.x) >= s.radius {
      SquareMonotonic(s.radius, Abs(d.x));
    }
  }

  // ---------------------------------------------------------- dead reckoning

  /** getNextPosition(i): the position after i more steps at the current velocity. */
  function NextPosition(position: Vec, velocity: Vec, i: int, timestep: real): (r: Vec)
    ensures i == 0 ==> r == position
  {
    Add(Scale(i as real * timestep, velocity), position)
  }

  /** Predicting i steps and then j more is predicting i + j; zero steps is the position itself. */
  lemma NextPositionCompose(position: Vec, velocity: Vec, i: int, j: int, timestep: real)
    ensures NextPosition(NextPosition(position, velocity, i, timestep), velocity, j, timestep)
            == NextPosition(position, velocity, i + j, timestep)
    ensures NextPosition(position, velocity, 0, timestep) == position
  {
    assert (i + j) as real * timestep == i as real * timestep + j as real * timestep;
  }

  // ------------------------------------------------------ preferred velocity

  /** The new prefVelocity, and the waypoint setCurrentGoal is called with (None: not called). */
  datatype PrefUpdate = PrefUpdate(velocity: Vec, waypoint: Option<Vec>)

  /**
   * setPrefVelocity: with a road map, the waypoint direction; else towards
   * the goal; else along prefDirection; each scaled by the preferred speed.
   * None when the last case meets a null prefDirection.
   */
  function PreferredVelocity(n: Numerics, s: Settings, obstacles: seq<VertexRecord>, roadMap: Option<RoadMap>,
                             goal: Option<Vec>, prefDirection: Option<Vec>, position: Vec, velocity: Vec, speed: real): Option<PrefUpdate>
  {
    if roadMap.Some? then
      var st := PrefDirection(n, obstacles, roadMap.value, position, velocity, s.radius);
      Some(PrefUpdate(Scale(speed, st.direction), st.waypoint))
    else if goal.Some? then Some(PrefUpdate(Scale(speed, Normalize(n, Sub(goal.value, position))), None))
    else if prefDirection.Some? then Some(PrefUpdate(Scale(speed, Normalize(n, prefDirection.value)), None))
    else None
  }

  /**
   * The preferred velocity has the preferred speed, or is zero: the road
   * map gave no waypoint or one at the position, the goal is the position,
   * or prefDirection is zero.
   */
  lemma PreferredVelocitySpeed(n: Numerics, s: Settings, obstacles: seq<VertexRecord>, roadMap: Option<RoadMap>,
                               goal: Option<Vec>, prefDirection: Option<Vec>, position: Vec, velocity: Vec, speed: real)
    requires SqrtSound(n)
    requires PreferredVelocity(n, s, obstacles, roadMap, goal, prefDirection, position, velocity, speed).Some?
    ensures var v := PreferredVelocity(n, s, obstacles, roadMap, goal, prefDirection, position, velocity, speed).value.velocity;
            SqLength(v) == speed * speed || v == Zero
  {
    var u: Vec;
    if roadMap.Some? {
      PrefDirectionUnitOrZero(n, obstacles, roadMap.value, position, velocity, s.radius);
      u := PrefDirection(n, obstacles, roadMap.value, position, velocity, s.radius).direction;
    } else if goal.Some? {
      NormalizeUnitOrZero(n, Sub(goal.value, position));
      u := Normalize(n, Sub(goal.value, position));
    } else {
      NormalizeUnitOrZero(n, prefDirection.value);
      u := Normalize(n, prefDirection.value);
    }
    ScaleSqLength(speed, u);
  }

  // ------------------------------------------------------------- expectancy

  /** What the expectancy check does to WorkingMemory's violateExpectancy flag. */
  datatype Expectancy =
    | SetViolated(violated: bool)      // setViolateExpectancy(violated)
    | LeaveAsIs                         // no strategy: the flag is not touched
    | TargetMissing                     // the target is not among the sensed agents: null is dereferenced

  /** getMyPositionAtEye: a radius ahead of the position along the velocity. */
  function PositionAtEye(n: Numerics, position: Vec, velocity: Vec, radius: real): Vec
  {
    Add(Scale(radius, Normalize(n, velocity)), position)
  }

  /** The adjusted velocity is within 0.1 preferredSpeed and 5 degrees of the preferred one. */
  predicate AsExpected(n: Numerics, speed: real, pref: Vec, temp: Vec)
  {
    WithinLength(Sub(temp, pref), 0.1 * speed) && n.cos(n.angle(temp, pref)) >= n.cos(5.0 * PI / 180.0)
  }

  /** The signed angles from me-to-target to pref and to temp have a negative product. */
  predicate SidesDiffer(n: Numerics, target: Neighbour, eye: Vec, pref: Vec, temp: Vec)
  {
    var meToTarget := Sub(target.pos, eye);
    n.angleBetweenWSign(meToTarget, temp) * n.angleBetweenWSign(meToTarget, pref) < 0.0
  }

  /**
   * The expectancy rule: not violated when the adjusted velocity is as
   * expected; otherwise, with an active strategy, violated exactly when the
   * two velocities pass the target agent on different sides; with no
   * strategy the flag is left alone.
   */
  function CheckExpectancy(n: Numerics, s: Settings, speed: real, pref: Vec, temp: Vec, strategyTarget: Option<int>,
                           sensed: seq<Neighbour>, position: Vec, velocity: Vec): (r: Expectancy)
    ensures var eye := PositionAtEye(n, position, velocity, s.radius);
            var target := if strategyTarget.Some? then FindById(sensed, strategyTarget.value) else None;
            (r == SetViolated(true) <==>
               !AsExpected(n, speed, pref, temp) && target.Some? && SidesDiffer(n, target.value, eye, pref, temp))
            && (r == SetViolated(false) <==>
                  AsExpected(n, speed, pref, temp) || (target.Some? && !SidesDiffer(n, target.value, eye, pref, temp)))
            && (r == LeaveAsIs <==> !AsExpected(n, speed, pref, temp) && strategyTarget.None?)
            && (r == TargetMissing <==> !AsExpected(n, speed, pref, temp) && strategyTarget.Some? && target.None?)
  {
    if AsExpected(n, speed, pref, temp) then SetViolated(false)
    else if strategyTarget.None? then LeaveAsIs
    else match FindById(sensed, strategyTarget.value)
      case None => TargetMissing
      case Some(target) => SetViolated(SidesDiffer(n, target, PositionAtEye(n, position, velocity, s.radius), pref, temp))
  }

  /** The flag after the check. */
  function ViolationAfter(e: Expectancy, flag: bool): bool
  {
    if e.SetViolated? then e.violated else flag
  }

  // ------------------------------------------------------------------ agent

  /**
   * The calculateVelocity of a planner the model leaves abstract: the
   * agent's position and velocity, the sensed agents and obstacles and the
   * preferred velocity give the new velocity.
   */
  type Planner = (Vec, Vec, seq<Neighbour>, set<Located>, Vec) -> Vec

  /** The part of WorkingMemory (the pattern-based planner) the step reads and writes. */
  class WorkingMemory {
    var violateExpectancy: bool
    /** The target agent id of getDecision(); None when getCurrentStrategy() is null. */
    var strategyTarget: Option<int>

    constructor()
      ensures !violateExpectancy && strategyTarget.None?
    {
      violateExpectancy := false;
      strategyTarget := None;
    }
  }

  class Agent {
    var id: int
    var currentPosition: Vec
    var velocity: Vec
    var chosenVelocity: Vec
    var prefVelocity: Vec
    var preferredSpeed: real
    var prefDirection: Option<Vec>
    var goal: Option<Vec>
    var currentGoalPoint: Option<Vec>
    var dead: bool
    var roadMap: Option<RoadMap>
    var commitmentLevel: Option<Commitment>
    var hasDevice: bool
    var mySpace: Space
    var memory: WorkingMemory

    constructor(id: int, position: Vec, goal: Option<Vec>, space: Space, memory: WorkingMemory)
      ensures this.id == id && currentPosition == position && this.goal == goal
      ensures mySpace == space && this.memory == memory && !dead
    {
      this.id := id;
      currentPosition := position;
      velocity := Zero;
      chosenVelocity := Zero;
      prefVelocity := Zero;
      preferredSpeed := 0.0;
      prefDirection := None;
      this.goal := goal;
      currentGoalPoint := None;
      dead := false;
      roadMap := None;
      commitmentLevel := None;
      hasDevice := false;
      mySpace := space;
      this.memory := memory;
    }

    /** equals: another agent with the same id. */
    predicate Equals(other: Agent?): (r: bool)
      reads this, other
      ensures r ==> other != null && HashCode(id) == HashCode(other.id)
    {
      other != null && id == other.id
    }

    /** getGoal: the goal, or getFinalGoal with a road map (None where that throws). */
    function Goal(): Option<Vec>
      reads this
    {
      if roadMap.None? then goal else FinalGoal(roadMap.value)
    }

    /** What perception reads of this agent. */
    function Me(): Observer
      reads this
    {
      Observer(id, currentPosition, velocity, Goal())
    }

    method SetCommitmentLevel(number: int)
      modifies this`commitmentLevel
      ensures commitmentLevel == Some(CommitmentFor(number))
    {
      commitmentLevel := Some(CommitmentFor(number));
    }

    /** determinePrefVelocity: the two-probe scan, then tryWeakTest. */
    method DeterminePrefVelocity(n: Numerics, s: Settings) returns (result: Vec)
      requires roadMap.Some?
      modifies this`currentGoalPoint
      ensures var st := PrefDirection(n, mySpace.obstacleList, roadMap.value, currentPosition, velocity, s.radius);
              result == st.direction && currentGoalPoint == if st.waypoint.Some? then st.waypoint else old(currentGoalPoint)
    {
      var probes := Probes(n, currentPosition, velocity, s.radius, true);
      var c := ScanGroups(n, mySpace.obstacleList, probes, currentPosition, roadMap.value);
      if c.Some? {
        var w := Waypoint(roadMap.value, c.value);
        result := Sub(w, currentPosition);
        if Length(n, result) != 0.0 {
          result := Normalize(n, result);
        }
        currentGoalPoint := Some(w);
      } else {
        result := TryWeakTest(n);
      }
    }

    /** tryWeakTest: the scan with the position as the only probe; zero when nothing passes. */
    method TryWeakTest(n: Numerics) returns (result: Vec)
      requires roadMap.Some?
      modifies this`currentGoalPoint
      ensures var st := WeakSteering(n, mySpace.obstacleList, roadMap.value, currentPosition);
              result == st.direction && currentGoalPoint == if st.waypoint.Some? then st.waypoint else old(currentGoalPoint)
    {
      var probes := Probes(n, currentPosition, Zero, 0.0, false);
      var c := ScanGroups(n, mySpace.obstacleList, probes, currentPosition, roadMap.value);
      if c.Some? {
        var w := Waypoint(roadMap.value, c.value);
        result := Normalize(n, Sub(w, currentPosition));
        currentGoalPoint := Some(w);
      } else {
        result := Zero;
      }
    }

    /** setPrefVelocity; false where a null prefDirection is dereferenced, with nothing written. */
    method SetPrefVelocity(n: Numerics, s: Settings) returns (ok: bool)
      modifies this`prefVelocity, this`currentGoalPoint
      ensures var u := PreferredVelocity(n, s, mySpace.obstacleList, roadMap, goal, prefDirection, currentPosition, velocity, preferredSpeed);
              ok == u.Some?
              && (ok ==> prefVelocity == u.value.velocity
                         && currentGoalPoint == if u.value.waypoint.Some? then u.value.waypoint else old(currentGoalPoint))
              && (!ok ==> prefVelocity == old(prefVelocity) && currentGoalPoint == old(currentGoalPoint))
    {
      if roadMap.Some? {
        var direction := DeterminePrefVelocity(n, s);
        prefVelocity := Scale(preferredSpeed, direction);
      } else if goal.Some? {
        prefVelocity := Scale(preferredSpeed, Normalize(n, Sub(goal.value, currentPosition)));
      } else if prefDirection.Some? {
        prefVelocity := Scale(preferredSpeed, Normalize(n, prefDirection.value));
      } else {
        return false;
      }
      return true;
    }

    /**
     * SenseThink.step. The sensed bag is what senseNeighbours returned, in
     * its iteration order; planner is the agent's velocityCalc, adjust the
     * RVO2 calculator pattern-based motion corrects its plan with. The result
     * is false where the step dereferences null.
     */
    method SenseThink(n: Numerics, s: Settings, bag: seq<Neighbour>, planner: Planner, adjust: Planner) returns (ok: bool)
      requires forall i :: 0 <= i < |bag| ==> bag[i].id in mySpace.SenseNeighbours(s, currentPosition, s.radius)
      modifies this`dead, this`prefVelocity, this`currentGoalPoint, this`chosenVelocity, memory`violateExpectancy
      ensures currentPosition == old(currentPosition) && velocity == old(velocity)
      ensures old(dead) ==> ok && dead && prefVelocity == old(prefVelocity) && currentGoalPoint == old(currentGoalPoint)
                            && chosenVelocity == old(chosenVelocity) && memory.violateExpectancy == old(memory.violateExpectancy)
      ensures !old(dead) && GoalReached(s, currentPosition, goal) ==>
                ok && dead && prefVelocity == old(prefVelocity) && currentGoalPoint == old(currentGoalPoint)
                && chosenVelocity == old(chosenVelocity) && memory.violateExpectancy == old(memory.violateExpectancy)
      ensures !old(dead) && !GoalReached(s, currentPosition, goal) ==>
                !dead
                && var sensed := if s.infoProcessing then Perceive(n, old(Me()), bag, s.radius, s.infoLimit) else Some(bag);
                   var obstacles := mySpace.SenseObstacles(s, currentPosition, s.radius);
                   (sensed.None? ==>
                      !ok && prefVelocity == old(prefVelocity) && currentGoalPoint == old(currentGoalPoint)
                      && chosenVelocity == old(chosenVelocity) && memory.violateExpectancy == old(memory.violateExpectancy))
                   && (sensed.Some? && s.model == PatternBasedMotion ==>
                         var pref := planner(currentPosition, velocity, sensed.value, obstacles, old(prefVelocity));
                         var temp := adjust(currentPosition, velocity, sensed.value, obstacles, pref);
                         var e := CheckExpectancy(n, s, preferredSpeed, pref, temp, memory.strategyTarget, sensed.value, currentPosition, velocity);
                         prefVelocity == pref && currentGoalPoint == old(currentGoalPoint)
                         && ok == !e.TargetMissing?
                         && (ok ==> chosenVelocity == temp && memory.violateExpectancy == ViolationAfter(e, old(memory.violateExpectancy)))
                         && (!ok ==> chosenVelocity == old(chosenVelocity) && memory.violateExpectancy == old(memory.violateExpectancy)))
                   && (sensed.Some? && s.model != PatternBasedMotion ==>
                         var u := PreferredVelocity(n, s, mySpace.obstacleList, roadMap, goal, prefDirection, currentPosition, velocity, preferredSpeed);
                         memory.violateExpectancy == old(memory.violateExpectancy)
                         && ok == u.Some?
                         && (ok ==> prefVelocity == u.value.velocity
                                    && currentGoalPoint == (if u.value.waypoint.Some? then u.value.waypoint else old(currentGoalPoint))
                                    && chosenVelocity == planner(currentPosition, velocity, sensed.value, obstacles, prefVelocity))
                         && (!ok ==> prefVelocity == old(prefVelocity) && currentGoalPoint == old(currentGoalPoint)
                                     && chosenVelocity == old(chosenVelocity)))
    {
      if dead {
        return true;
      }
      if GoalReached(s, currentPosition, goal) {
        dead := true;
        return true;
      }
      var sensed := bag;
      if s.infoProcessing {
        var perceived := DetermineInitialLists(n, Me(), bag, s.radius, s.infoLimit);
        if perceived.None? {
          return false;
        }
        sensed := perceived.value;
      }
      var obstacles := mySpace.SenseObstacles(s, currentPosition, s.radius);
      if s.model == PatternBasedMotion {
        prefVelocity := planner(currentPosition, velocity, sensed, obstacles, prefVelocity);
        var tempVelocity := adjust(currentPosition, velocity, sensed, obstacles, prefVelocity);
        var e := CheckExpectancy(n, s, preferredSpeed, prefVelocity, tempVelocity, memory.strategyTarget, sensed, currentPosition, velocity);
        if e.TargetMissing? {
          return false;
        }
        if e.SetViolated? {
          memory.violateExpectancy := e.violated;
        }
        chosenVelocity := tempVelocity;
      } else {
        var updated := SetPrefVelocity(n, s);
        if !updated {
          return false;
        }
        var tempVelocity := planner(currentPosition, velocity, sensed, obstacles, prefVelocity);
        chosenVelocity := tempVelocity;
      }
      return true;
    }

    /**
     * Act.step: a live agent takes the chosen velocity and moves by it for
     * one time step, and the map stores it at the new position; a dead agent
     * changes nothing.
     */
    method Act(s: Settings)
      modifies this`velocity, this`currentPosition, mySpace
      ensures old(dead) ==> velocity == old(velocity) && currentPosition == old(currentPosition)
                            && mySpace.agentSpace == old(mySpace.agentSpace) && mySpace.deviceSpace == old(mySpace.deviceSpace)
      ensures !old(dead) ==>
                velocity == old(chosenVelocity)
                && currentPosition == NextPosition(old(currentPosition), old(chosenVelocity), 1, s.timestep)
                && mySpace.agentSpace == old(mySpace.agentSpace)[id := currentPosition]
                && mySpace.deviceSpace == if hasDevice then old(mySpace.deviceSpace)[id := currentPosition] else old(mySpace.deviceSpace)
      ensures mySpace.obstacleList == old(mySpace.obstacleList) && mySpace.obstacleSpace == old(mySpace.obstacleSpace)
    {
      if !dead {
        velocity := chosenVelocity;
        var x := currentPosition.x + velocity.x * s.timestep;
        var y := currentPosition.y + velocity.y * s.timestep;
        currentPosition := Vec(x, y);
        mySpace.UpdatePositionOnMap(id, hasDevice, x, y);
      }
    }
  }
}
