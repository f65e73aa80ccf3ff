/** SNS_IK, the facade: it owns the capability table of a kinematic chain, the active velocity
    solver and the position solver wrapped around it, assembles the tasks of a velocity
    solve and forwards solves to the solvers. */
module Facade {
  import opened Wrappers
  import opened Kdl
  import opened JointLimits
  import opened Solvers
  import opened Tasks

  /** ChainJntToJacSolver::JntToJac at the given joint positions; `None` is a negative return. */
  type JacobianFn = seq<real> -> Option<Matrix>

  /** getJointVelocity of a velocity solver: given the stack of tasks and the joint positions, a
      status and the joint velocities it writes. */
  type VelocityIkFn = (VelocitySolver, seq<Task>, seq<real>) -> (int, seq<real>)

  /** SNSPositionIK::CartToJnt: a status and the joint positions it writes. */
  type PositionIkFn = (PositionSolver, PositionQuery) -> (int, seq<real>)

  /** KDL's Jacobian solver reports failure for a joint vector whose size is not the chain's
      joint count; its other failures are left open. */
  ghost predicate JacobianChecksSize(chain: Chain, jntToJac: JacobianFn)
  {
    forall q :: jntToJac(q).Some? ==> |q| == NrOfJoints(chain)
  }

  /** All five tables have one entry per joint of the chain. */
  predicate TablesMatch(n: nat, lower: seq<real>, upper: seq<real>, velocity: seq<real>,
                        acceleration: seq<real>, names: seq<string>)
  {
    |lower| == n && |upper| == n && |velocity| == n && |acceleration| == n && |names| == n
  }

  class SnsIk {
    const chain: Chain
    const lowerBounds: seq<real>
    const upperBounds: seq<real>
    const velocity: seq<real>
    const acceleration: seq<real>
    const jointNames: seq<string>
    const looprate: real
    const eps: real
    const nullspaceGain: real
    /** The class of each joint, filled by initialization. */
    var types: seq<JointKind>
    /** Whether initialization got as far as building the Jacobian solver. */
    var jacobianSolverBuilt: bool
    var solveType: VelocitySolveType
    var velSolver: Option<VelocitySolver>
    var posSolver: Option<PositionSolver>
    var initialized: bool

    /** The capabilities handed to every velocity solver. */
    function Caps(): Capabilities
    {
      Capabilities(lowerBounds, upperBounds, velocity, acceleration)
    }

    /** The tables fit a chain with at least one joint. */
    predicate TablesValid()
    {
      TablesMatch(NrOfJoints(chain), lowerBounds, upperBounds, velocity, acceleration, jointNames)
      && NrOfJoints(chain) > 0
    }

    /** The facade invariant. Once the Jacobian solver is built the tables fit the chain and
        every joint is classified; the facade is ready exactly when a solver pair is installed,
        and an installed velocity solver is the one for the current solve type, configured with
        the facade's capabilities, and is the one the position solver wraps. */
    ghost predicate Valid()
      reads this
    {
      && (jacobianSolverBuilt ==>
            && TablesValid()
            && |Motions(chain.segments)| == |lowerBounds|
            && types == Classify(Motions(chain.segments), lowerBounds, upperBounds))
      && (initialized <==> velSolver.Some?)
      && (velSolver.None? ==> posSolver.None?)
      && (velSolver.Some? ==>
            && velSolver == NewVelocitySolver(solveType, NrOfJoints(chain), looprate, Caps())
            && posSolver == Some(PositionSolver(chain, velSolver.value, eps)))
    }

    /** The constructor from a robot description: the capability table is derived joint by
        joint from the URDF and the overrides, then the facade is initialized. */
    constructor FromRobotModel(chain: Chain, robot: map<string, UrdfJoint>,
                               overrides: map<string, LimitOverride>, looprate: real, eps: real,
                               t: VelocitySolveType)
      requires Described(chain.segments, robot)
      requires |RowJoints(chain.segments, robot)| == NrOfJoints(chain)
      ensures Valid()
      ensures this.chain == chain && this.looprate == looprate && this.eps == eps
      ensures nullspaceGain == 1.0 && solveType == t
      ensures TablesMatch(NrOfJoints(chain), lowerBounds, upperBounds, velocity, acceleration, jointNames)
      ensures forall k :: 0 <= k < |jointNames| ==>
        && jointNames[k] == RowJoints(chain.segments, robot)[k].name
        && Bounds(lowerBounds[k], upperBounds[k], velocity[k], acceleration[k])
           == DerivedBounds(RowJoints(chain.segments, robot)[k], overrides)
      ensures initialized <==> NrOfJoints(chain) > 0 && !t.Unlisted?
      ensures jacobianSolverBuilt <==> NrOfJoints(chain) > 0
    {
      var lower, upper, vel, acc, names := DeriveLimits(chain, robot, overrides);
      this.chain := chain;
      lowerBounds, upperBounds, velocity, acceleration, jointNames := lower, upper, vel, acc, names;
      this.looprate, this.eps, nullspaceGain := looprate, eps, 1.0;
      solveType := t;
      types, jacobianSolverBuilt, velSolver, posSolver, initialized := [], false, None, None, false;
      new;
      var _ := Initialize();
    }

    /** The constructor from explicit tables, taken as given. */
    constructor FromLimits(chain: Chain, qMin: seq<real>, qMax: seq<real>, vMax: seq<real>,
                           aMax: seq<real>, jointNames: seq<string>, looprate: real, eps: real,
                           t: VelocitySolveType)
      ensures Valid()
      ensures this.chain == chain && lowerBounds == qMin && upperBounds == qMax
      ensures velocity == vMax && acceleration == aMax && this.jointNames == jointNames
      ensures this.looprate == looprate && this.eps == eps && nullspaceGain == 1.0 && solveType == t
      ensures initialized <==>
        && TablesMatch(NrOfJoints(chain), qMin, qMax, vMax, aMax, jointNames)
        && NrOfJoints(chain) > 0 && !t.Unlisted?
      ensures jacobianSolverBuilt <==> TablesValid()
    {
      this.chain := chain;
      lowerBounds, upperBounds, velocity, acceleration, this.jointNames := qMin, qMax, vMax, aMax, jointNames;
      this.looprate, this.eps, nullspaceGain := looprate, eps, 1.0;
      solveType := t;
      types, jacobianSolverBuilt, velSolver, posSolver, initialized := [], false, None, None, false;
      new;
      var _ := Initialize();
    }

    /** Checks the tables against the chain, classifies every joint and installs the solvers
        for the current solve type. It fails, leaving the facade not ready, when a table's
        length differs from the joint count, when the chain has no joint, or when the solve
        type is not one of the five. */
    method Initialize() returns (ok: bool)
      requires Valid()
      requires !initialized && !jacobianSolverBuilt && types == []
      modifies this
      ensures Valid()
      ensures ok == initialized
      ensures ok <==> TablesValid() && !solveType.Unlisted?
      ensures jacobianSolverBuilt <==> TablesValid()
      ensures !TablesValid() ==> types == [] && velSolver.None?
      ensures solveType == old(solveType)
    {
      var n := NrOfJoints(chain);
      if n != |lowerBounds| || n != |upperBounds| || n != |velocity| || n != |acceleration|
        || n != |jointNames| {
        return false;
      }
      if |jointNames| == 0 {
        return false;
      }
      ClassifyJoints();
      if |types| != |lowerBounds| {
        return false;
      }
      jacobianSolverBuilt := true;
      ok := SetVelocitySolveType(solveType);
    }

    /** The classification loop of initialization: every segment whose joint type name
        contains "Rot" or "Trans" appends the class of the next joint's bounds. */
    method ClassifyJoints()
      requires TablesValid() && types == []
      modifies this`types
      ensures |types| == |Motions(chain.segments)| == NrOfJoints(chain)
      ensures types == Classify(Motions(chain.segments), lowerBounds, upperBounds)
    {
      var segs := chain.segments;
      MotionsCountJoints(segs);
      for i := 0 to |segs|
        invariant |Motions(segs[..i])| <= NrOfJoints(chain)
        invariant types == Classify(Motions(segs[..i]), lowerBounds, upperBounds)
      {
        MotionsPrefix(segs, i + 1);
        ClassifyStep(segs, i, lowerBounds, upperBounds);
        var name := TypeName(segs[i].joint.jointType);
        if HasInfix(name, "Rot") {
          if upperBounds[|types|] >= FLOAT_MAX && lowerBounds[|types|] <= FLOAT_LOWEST {
            types := types + [ContinuousJoint];
          } else {
            types := types + [RevoluteJoint];
          }
        } else if HasInfix(name, "Trans") {
          types := types + [PrismaticJoint];
        }
      }
      assert segs[..|segs|] == segs;
    }

    /** Selects the velocity solver. Asking again for the active type while a solver is
        installed changes nothing and reports failure; an unlisted type changes nothing and
        reports failure; any other request installs a new velocity solver of that type's class,
        configured with the capabilities and without position limits, wraps it in a new
        position solver, records the type and makes the facade ready. */
    method SetVelocitySolveType(t: VelocitySolveType) returns (ok: bool)
      requires Valid()
      modifies this
      ensures Valid()
      ensures old(solveType) == t && old(velSolver).Some? ==> !ok && unchanged(this)
      ensures (old(solveType) != t || old(velSolver).None?) && t.Unlisted? ==> !ok && unchanged(this)
      ensures (old(solveType) != t || old(velSolver).None?) && !t.Unlisted? ==>
        && ok && initialized && solveType == t
        && velSolver == NewVelocitySolver(t, NrOfJoints(chain), looprate, Caps())
        && posSolver == Some(PositionSolver(chain, velSolver.value, eps))
        && types == old(types) && jacobianSolverBuilt == old(jacobianSolverBuilt)
    {
      if solveType != t || velSolver.None? {
        var solver := NewVelocitySolver(t, NrOfJoints(chain), looprate, Caps());
        if solver.None? {
          return false;
        }
        velSolver := solver;
        posSolver := Some(PositionSolver(chain, solver.value, eps));
        solveType := t;
        initialized := true;
        return true;
      }
      return false;
    }

    /** The bias lookup: fails when the bias values and names differ in number or a bias name
        is not a joint name; otherwise resolves each bias name to its first position among the
        joints and builds the selection matrix, one row per bias joint and one column per
        joint. */
    method NullspaceBiasTask(qBias: seq<real>, biasNames: seq<string>) returns (r: Option<Selection>)
      ensures r == BiasSelection(jointNames, qBias, biasNames)
    {
      if |qBias| != |biasNames| {
        return None;
      }
      var n := |jointNames|;
      var jacobian: Matrix := seq(|qBias|, _ => seq(n, _ => 0.0));
      var indices: seq<nat> := seq(|qBias|, _ => 0);
      for ii := 0 to |qBias|
        invariant |jacobian| == |qBias| && |indices| == |qBias|
        invariant forall k :: 0 <= k < ii ==>
          && biasNames[k] in jointNames
          && indices[k] == IndexOf(jointNames, biasNames[k])
          && jacobian[k] == UnitRow(indices[k], n)
        invariant forall k :: ii <= k < |qBias| ==> jacobian[k] == seq(n, _ => 0.0)
      {
        var indx := IndexOf(jointNames, biasNames[ii]);
        if indx == n {
          return None;
        }
        assert jacobian[ii][indx := 1.0] == UnitRow(indx, n);
        jacobian := jacobian[ii := jacobian[ii][indx := 1.0]];
        indices := indices[ii := indx];
      }
      assert indices == seq(|biasNames|, ii requires 0 <= ii < |biasNames| => IndexOf(jointNames, biasNames[ii]));
      assert jacobian == SelectionMatrix(indices, n);
      return Some(Selection(jacobian, indices));
    }

    /** The position solve: not ready, or a bias request whose lookup fails, gives -1 and
        leaves the output alone; otherwise the pose, with the bias Jacobian, indices and gain
        when bias values are given, is forwarded to the position solver. */
    method CartToJnt(qInit: seq<real>, pIn: Frame, qBias: seq<real>, biasNames: seq<string>,
                     qOut: seq<real>, bounds: Twist, positionIk: PositionIkFn)
      returns (ret: int, qResult: seq<real>)
      requires Valid()
      ensures !initialized ==> ret == -1 && qResult == qOut
      ensures initialized && |qBias| > 0 && BiasSelection(jointNames, qBias, biasNames).None? ==>
        ret == -1 && qResult == qOut
      ensures initialized && |qBias| > 0 && BiasSelection(jointNames, qBias, biasNames).Some? ==>
        var sel := BiasSelection(jointNames, qBias, biasNames).value;
        (ret, qResult) == positionIk(posSolver.value,
                                     BiasedPoseQuery(qInit, pIn, qBias, sel.jacobian, sel.indices,
                                                     nullspaceGain, bounds))
      ensures initialized && |qBias| == 0 ==>
        (ret, qResult) == positionIk(posSolver.value, PoseQuery(qInit, pIn, bounds))
    {
      if !initialized {
        return -1, qOut;
      }
      if |qBias| > 0 {
        var sel := NullspaceBiasTask(qBias, biasNames);
        if sel.None? {
          return -1, qOut;
        }
        var out := positionIk(posSolver.value,
                              BiasedPoseQuery(qInit, pIn, qBias, sel.value.jacobian, sel.value.indices,
                                              nullspaceGain, bounds));
        ret, qResult := out.0, out.1;
      } else {
        var out := positionIk(posSolver.value, PoseQuery(qInit, pIn, bounds));
        ret, qResult := out.0, out.1;
      }
    }

    /** The desired velocity of the bias task: for each bias row, the gain times the distance
        from the joint's position to its target, per control period. */
    method NullspaceVelocity(qBias: seq<real>, qIn: seq<real>, indices: seq<nat>) returns (desired2: seq<real>)
      requires looprate != 0.0
      requires |indices| == |qBias|
      requires forall ii :: 0 <= ii < |indices| ==> indices[ii] < |qIn|
      ensures desired2 == BiasDesired(nullspaceGain, looprate, qBias, qIn, indices)
    {
      desired2 := seq(|qBias|, _ => 0.0);
      for ii := 0 to |qBias|
        invariant |desired2| == |qBias|
        invariant forall k :: 0 <= k < ii ==>
          desired2[k] == BiasVelocity(nullspaceGain, looprate, qBias[k], qIn[indices[k]])
      {
        desired2 := desired2[ii := BiasVelocity(nullspaceGain, looprate, qBias[ii], qIn[indices[ii]])];
      }
    }

    /** The velocity solve: not ready, a failed Jacobian or a failed bias lookup gives -1 and
        leaves the output alone; otherwise the stack of tasks (the primary task, then the bias task
        when bias values are given) is forwarded to the velocity solver with the joint positions. */
    method CartToJntVel(qIn: seq<real>, vIn: Twist, qBias: seq<real>, biasNames: seq<string>,
                        qdotOut: seq<real>, jntToJac: JacobianFn, velocityIk: VelocityIkFn)
      returns (ret: int, qdot: seq<real>)
      requires Valid()
      requires initialized ==> jacobianSolverBuilt
      requires JacobianChecksSize(chain, jntToJac)
      requires |qBias| > 0 ==> looprate != 0.0
      ensures !initialized ==> ret == -1 && qdot == qdotOut
      ensures initialized && jntToJac(qIn).None? ==> ret == -1 && qdot == qdotOut
      ensures initialized && jntToJac(qIn).Some? ==>
        && |qIn| == |jointNames|
        && var tasks := VelocityTasks(jointNames, jntToJac(qIn).value, vIn, qBias, biasNames, qIn,
                                      nullspaceGain, looprate);
           && (tasks.None? ==> ret == -1 && qdot == qdotOut)
           && (tasks.Some? ==> (ret, qdot) == velocityIk(velSolver.value, tasks.value, qIn))
    {
      if !initialized {
        return -1, qdotOut;
      }
      var jacobian := jntToJac(qIn);
      if jacobian.None? {
        return -1, qdotOut;
      }
      var desired := seq(6, _ => 0.0);
      for i := 0 to 6
        invariant |desired| == 6
        invariant forall k :: 0 <= k < i ==> desired[k] == vIn.At(k)
      {
        desired := desired[i := vIn.At(i)];
      }
      assert desired == PrimaryTask(jacobian.value, vIn).desired;
      var sot := [Task(jacobian.value, desired)];
      if |qBias| > 0 {
        var sel := NullspaceBiasTask(qBias, biasNames);
        if sel.None? {
          return -1, qdotOut;
        }
        var desired2 := NullspaceVelocity(qBias, qIn, sel.value.indices);
        sot := sot + [Task(sel.value.jacobian, desired2)];
        assert sot == VelocityTasks(jointNames, jacobian.value, vIn, qBias, biasNames, qIn,
                                    nullspaceGain, looprate).value;
      }
      var out := velocityIk(velSolver.value, sot, qIn);
      ret, qdot := out.0, out.1;
    }
  }

  /** A facade whose tables do not fit its chain fails to initialize, yet a later request for a
      solve type, even the one it already has, installs a solver pair and makes it ready
      although its Jacobian solver was never built. */
  method ReadyWithoutJacobianSolver(chain: Chain) returns (ik: SnsIk)
    requires NrOfJoints(chain) > 0
    ensures ik.initialized && !ik.jacobianSolverBuilt
  {
    ik := new SnsIk.FromLimits(chain, [], [], [], [], [], 100.0, 0.00001, Sns);
    assert !ik.initialized && !ik.jacobianSolverBuilt;
    var ok := ik.SetVelocitySolveType(Sns);
    assert ok;
  }

  /** Asking twice in a row for the same listed solve type: the first request installs its
      solver pair, the second changes nothing, reports failure and leaves that pair in place. */
  method SameSolveTypeTwice(ik: SnsIk, t: VelocitySolveType) returns (first: bool, second: bool)
    requires ik.Valid() && !t.Unlisted?
    modifies ik
    ensures ik.Valid() && ik.initialized && ik.solveType == t && !second
    ensures ik.velSolver == NewVelocitySolver(t, NrOfJoints(ik.chain), ik.looprate, ik.Caps())
  {
    first := ik.SetVelocitySolveType(t);
    ghost var pair := (ik.velSolver, ik.posSolver);
    second := ik.SetVelocitySolveType(t);
    assert (ik.velSolver, ik.posSolver) == pair;
  }

  /** Construction from tables that fit a one-joint rotational chain, followed by a velocity
      solve without bias: the joint is classified from its bounds and the velocity solver
      receives the primary task alone. */
  method ConstructThenSolve(lower: real, upper: real, vIn: Twist, q: seq<real>,
                            jntToJac: JacobianFn, velocityIk: VelocityIkFn)
    returns (ik: SnsIk, ret: int, qdot: seq<real>)
    requires JacobianChecksSize(Chain([Segment(Joint("j1", RotZ))]), jntToJac)
    requires jntToJac(q).Some?
    ensures ik.Valid() && ik.initialized && ik.jacobianSolverBuilt && ik.velSolver.Some?
    ensures ik.types == [if upper >= FLOAT_MAX && lower <= FLOAT_LOWEST then ContinuousJoint else RevoluteJoint]
    ensures (ret, qdot) == velocityIk(ik.velSolver.value, [PrimaryTask(jntToJac(q).value, vIn)], q)
  {
    var chain := Chain([Segment(Joint("j1", RotZ))]);
    assert MovableCount(chain.segments) == 1;
    ik := new SnsIk.FromLimits(chain, [lower], [upper], [1.0], [1.0], ["j1"], 100.0, 0.00001, Sns);
    assert Motions(chain.segments) == [Rotational] by {
      TypeNameMarksMotion(RotZ);
      assert chain.segments[..0] == [];
    }
    ret, qdot := ik.CartToJntVel(q, vIn, [], [], [0.0], jntToJac, velocityIk);
  }
}
