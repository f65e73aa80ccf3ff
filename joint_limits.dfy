/** The per-joint capability table of the SNS IK facade: how each movable joint's position,
    velocity and acceleration bounds are derived from the robot description (URDF) and the
    parameter-server overrides, and how each joint is then classified as revolute, continuous
    or prismatic. */
module JointLimits {
  import opened Wrappers
  import opened Kdl

  /** std::numeric_limits<float>::max(), the largest finite single-precision value. */
  const FLOAT_MAX: real := 340282346638528859811704183484516925440.0
  /** std::numeric_limits<float>::lowest(). */
  const FLOAT_LOWEST: real := -FLOAT_MAX

  /** urdf::Joint::type. */
  datatype UrdfJointType = Unknown | Revolute | Continuous | Prismatic | Floating | Planar | Fixed

  /** The `<limit>` element of a URDF joint. */
  datatype UrdfLimits = UrdfLimits(lower: real, upper: real, velocity: real)

  /** The optional `<safety_controller>` element of a URDF joint. */
  datatype UrdfSafety = UrdfSafety(softLowerLimit: real, softUpperLimit: real)

  datatype UrdfJoint = UrdfJoint(name: string, jointType: UrdfJointType, limits: UrdfLimits,
                                 safety: Option<UrdfSafety>)

  /** The parameters `max_position`, `min_position`, `max_velocity` and `max_acceleration`
      found (or not) under `<urdf>_planning/joint_limits/<joint name>/`. */
  datatype LimitOverride = LimitOverride(maxPosition: Option<real>, minPosition: Option<real>,
                                         maxVelocity: Option<real>, maxAcceleration: Option<real>)

  const NO_OVERRIDE := LimitOverride(None, None, None, None)

  /** One joint's row of the capability table. */
  datatype Bounds = Bounds(lower: real, upper: real, velocity: real, acceleration: real)

  /** std::fabs. */
  function Abs(x: real): (r: real)
    ensures r >= 0.0 && (r == x || r == -x)
  {
    if x < 0.0 then -x else x
  }

  /** std::min. */
  function Min(a: real, b: real): (r: real)
    ensures r <= a && r <= b && (r == a || r == b)
  {
    if b < a then b else a
  }

  /** std::max. */
  function Max(a: real, b: real): (r: real)
    ensures r >= a && r >= b && (r == a || r == b)
  {
    if a < b then b else a
  }

  /** Joints the constructor loop gives a row: everything except unknown and fixed joints. */
  predicate HasRow(j: UrdfJoint)
  {
    j.jointType != Unknown && j.jointType != UrdfJointType.Fixed
  }

  /** The bounds taken from the robot description, before any override. A continuous joint
      gets the float sentinels and no velocity bound; any other joint gets the tighter of its
      hard and soft position limits and the magnitude of its hard velocity limit. */
  function DescribedBounds(j: UrdfJoint): (b: Bounds)
    ensures b.acceleration == 0.0
    ensures j.jointType == Continuous ==> b == Bounds(FLOAT_LOWEST, FLOAT_MAX, 0.0, 0.0)
    ensures j.jointType != Continuous ==>
      && b.velocity >= 0.0 && (b.velocity == j.limits.velocity || b.velocity == -j.limits.velocity)
      && j.limits.lower <= b.lower && b.upper <= j.limits.upper
      && (j.safety.None? ==> b.lower == j.limits.lower && b.upper == j.limits.upper)
      && (j.safety.Some? ==>
            && j.safety.value.softLowerLimit <= b.lower && b.upper <= j.safety.value.softUpperLimit
            && (b.lower == j.limits.lower || b.lower == j.safety.value.softLowerLimit)
            && (b.upper == j.limits.upper || b.upper == j.safety.value.softUpperLimit))
  {
    if j.jointType == Continuous then
      Bounds(FLOAT_LOWEST, FLOAT_MAX, 0.0, 0.0)
    else
      var lower := if j.safety.Some? then Max(j.limits.lower, j.safety.value.softLowerLimit) else j.limits.lower;
      var upper := if j.safety.Some? then Min(j.limits.upper, j.safety.value.softUpperLimit) else j.limits.upper;
      Bounds(lower, upper, Abs(j.limits.velocity), 0.0)
  }

  /** The parameter-server overrides applied to described bounds `b`. */
  function ApplyOverride(b: Bounds, o: LimitOverride): (r: Bounds)
    // position overrides can only narrow the range
    ensures r.lower >= b.lower && r.upper <= b.upper
    ensures o.maxPosition.None? ==> r.upper == b.upper
    ensures o.maxPosition.Some? ==>
      r.upper <= o.maxPosition.value && (r.upper == b.upper || r.upper == o.maxPosition.value)
    ensures o.minPosition.None? ==> r.lower == b.lower
    ensures o.minPosition.Some? ==>
      r.lower >= o.minPosition.value && (r.lower == b.lower || r.lower == o.minPosition.value)
    // a velocity override tightens a positive bound and replaces a missing one
    ensures o.maxVelocity.None? ==> r.velocity == b.velocity
    ensures o.maxVelocity.Some? && b.velocity > 0.0 ==>
      && r.velocity <= b.velocity && r.velocity <= Abs(o.maxVelocity.value)
      && (r.velocity == b.velocity || r.velocity == Abs(o.maxVelocity.value))
    ensures o.maxVelocity.Some? && b.velocity <= 0.0 ==> r.velocity == Abs(o.maxVelocity.value)
    ensures b.velocity >= 0.0 ==> r.velocity >= 0.0
    // the stored acceleration is the magnitude of the override, or of the prior value
    ensures r.acceleration >= 0.0
    ensures o.maxAcceleration.Some? ==> r.acceleration == Abs(o.maxAcceleration.value)
    ensures o.maxAcceleration.None? ==> r.acceleration == Abs(b.acceleration)
  {
    var upper := if o.maxPosition.Some? then Min(b.upper, o.maxPosition.value) else b.upper;
    var lower := if o.minPosition.Some? then Max(b.lower, o.minPosition.value) else b.lower;
    var velocity :=
      if o.maxVelocity.None? then b.velocity
      else if b.velocity > 0.0 then Min(b.velocity, Abs(o.maxVelocity.value))
      else Abs(o.maxVelocity.value);
    Bounds(lower, upper, velocity, Abs(o.maxAcceleration.GetOr(b.acceleration)))
  }

  /** The overrides recorded for the joint called `name`; none when nothing is recorded. */
  function OverrideFor(overrides: map<string, LimitOverride>, name: string): LimitOverride
  {
    if name in overrides then overrides[name] else NO_OVERRIDE
  }

  /** A joint's row of the capability table. */
  function DerivedBounds(j: UrdfJoint, overrides: map<string, LimitOverride>): (b: Bounds)
    ensures b.velocity >= 0.0 && b.acceleration >= 0.0
    ensures b.lower >= DescribedBounds(j).lower && b.upper <= DescribedBounds(j).upper
  {
    ApplyOverride(DescribedBounds(j), OverrideFor(overrides, j.name))
  }

  /** Every segment's joint is described by the robot model. */
  predicate Described(segs: seq<Segment>, robot: map<string, UrdfJoint>)
  {
    forall i :: 0 <= i < |segs| ==> segs[i].joint.name in robot
  }

  /** The URDF joints of the segments that get a row, in chain order. */
  function RowJoints(segs: seq<Segment>, robot: map<string, UrdfJoint>): seq<UrdfJoint>
    requires Described(segs, robot)
  {
    if segs == [] then []
    else
      var j := robot[segs[|segs| - 1].joint.name];
      RowJoints(segs[..|segs| - 1], robot) + (if HasRow(j) then [j] else [])
  }

  lemma {:induction false} RowJointsPrefix(segs: seq<Segment>, robot: map<string, UrdfJoint>, i: nat)
    requires Described(segs, robot) && i <= |segs|
    ensures Described(segs[..i], robot)
    ensures |RowJoints(segs[..i], robot)| <= |RowJoints(segs, robot)|
    decreases |segs|
  {
    if i < |segs| {
      var init := segs[..|segs| - 1];
      assert init[..i] == segs[..i];
      RowJointsPrefix(init, robot, i);
    } else {
      assert segs[..i] == segs;
    }
  }

  /** Reading one more segment appends its URDF joint when that joint gets a row. */
  lemma RowJointsStep(segs: seq<Segment>, robot: map<string, UrdfJoint>, i: nat)
    requires Described(segs, robot) && i < |segs|
    ensures Described(segs[..i], robot) && Described(segs[..i + 1], robot)
    ensures var j := robot[segs[i].joint.name];
            RowJoints(segs[..i + 1], robot) == RowJoints(segs[..i], robot) + (if HasRow(j) then [j] else [])
  {
    RowJointsPrefix(segs, robot, i + 1);
    assert segs[..i + 1][..i] == segs[..i];
  }

  /** The constructor loop over the chain's segments: one row per joint that is neither
      unknown nor fixed, written at consecutive positions of tables sized to the chain's
      joint count. The names are the URDF joint names. */
  method DeriveLimits(chain: Chain, robot: map<string, UrdfJoint>, overrides: map<string, LimitOverride>)
    returns (lower: seq<real>, upper: seq<real>, velocity: seq<real>, acceleration: seq<real>,
             names: seq<string>)
    requires Described(chain.segments, robot)
    requires |RowJoints(chain.segments, robot)| == NrOfJoints(chain)
    ensures |lower| == |upper| == |velocity| == |acceleration| == |names| == NrOfJoints(chain)
    ensures forall k :: 0 <= k < |names| ==>
      && names[k] == RowJoints(chain.segments, robot)[k].name
      && Bounds(lower[k], upper[k], velocity[k], acceleration[k])
         == DerivedBounds(RowJoints(chain.segments, robot)[k], overrides)
    ensures forall k :: 0 <= k < |names| ==> velocity[k] >= 0.0 && acceleration[k] >= 0.0
  {
    var segs := chain.segments;
    var n := NrOfJoints(chain);
    lower, upper := seq(n, _ => 0.0), seq(n, _ => 0.0);
    velocity, acceleration := seq(n, _ => 0.0), seq(n, _ => 0.0);
    names := seq(n, _ => "");
    var jointNum := 0;
    for i := 0 to |segs|
      invariant Described(segs[..i], robot)
      invariant jointNum == |RowJoints(segs[..i], robot)| <= n
      invariant |lower| == |upper| == |velocity| == |acceleration| == |names| == n
      invariant forall k :: 0 <= k < jointNum ==>
        && names[k] == RowJoints(segs[..i], robot)[k].name
        && Bounds(lower[k], upper[k], velocity[k], acceleration[k])
           == DerivedBounds(RowJoints(segs[..i], robot)[k], overrides)
    {
      RowJointsPrefix(segs, robot, i + 1);
      RowJointsStep(segs, robot, i);
      var joint := robot[segs[i].joint.name];
      if HasRow(joint) {
        var b := DerivedBounds(joint, overrides);
        lower := lower[jointNum := b.lower];
        upper := upper[jointNum := b.upper];
        velocity := velocity[jointNum := b.velocity];
        acceleration := acceleration[jointNum := b.acceleration];
        names := names[jointNum := joint.name];
        jointNum := jointNum + 1;
      }
    }
    assert segs[..|segs|] == segs;
  }

  /** How the classification loop reads a joint's KDL type name. */
  datatype Motion = Rotational | Translational

  /** A type name containing "Rot" is rotational, else one containing "Trans" is
      translational; a joint with neither is skipped. */
  function MotionOf(t: JointType): Option<Motion>
  {
    if HasInfix(TypeName(t), "Rot") then Some(Rotational)
    else if HasInfix(TypeName(t), "Trans") then Some(Translational)
    else None
  }

  /** The motions of the segments the classification loop does not skip, in chain order. */
  function Motions(segs: seq<Segment>): seq<Motion>
  {
    if segs == [] then []
    else
      var m := MotionOf(segs[|segs| - 1].joint.jointType);
      Motions(segs[..|segs| - 1]) + (if m.Some? then [m.value] else [])
  }

  /** Exactly the movable segments are classified, so there is one class per joint. */
  lemma {:induction false} MotionsCountJoints(segs: seq<Segment>)
    ensures |Motions(segs)| == MovableCount(segs)
  {
    if segs != [] {
      TypeNameMarksMotion(segs[|segs| - 1].joint.jointType);
      MotionsCountJoints(segs[..|segs| - 1]);
    }
  }

  lemma {:induction false} MotionsPrefix(segs: seq<Segment>, i: nat)
    requires i <= |segs|
    ensures |Motions(segs[..i])| <= |Motions(segs)|
    decreases |segs|
  {
    if i < |segs| {
      var init := segs[..|segs| - 1];
      assert init[..i] == segs[..i];
      MotionsPrefix(init, i);
    } else {
      assert segs[..i] == segs;
    }
  }

  /** SNS_IK::JointType. */
  datatype JointKind = RevoluteJoint | ContinuousJoint | PrismaticJoint

  /** A rotational joint whose bounds reach both float sentinels is continuous, any other
      rotational joint revolute; a translational joint is prismatic. */
  function ClassOf(m: Motion, lower: real, upper: real): JointKind
  {
    match m
    case Rotational => if upper >= FLOAT_MAX && lower <= FLOAT_LOWEST then ContinuousJoint else RevoluteJoint
    case Translational => PrismaticJoint
  }

  /** The classes of the classified joints, the k-th read against the k-th bounds. */
  function Classify(motions: seq<Motion>, lower: seq<real>, upper: seq<real>): seq<JointKind>
    requires |motions| <= |lower| && |motions| <= |upper|
  {
    seq(|motions|, k requires 0 <= k < |motions| => ClassOf(motions[k], lower[k], upper[k]))
  }

  lemma MotionsStep(segs: seq<Segment>, i: nat)
    requires i < |segs|
    ensures var m := MotionOf(segs[i].joint.jointType);
            Motions(segs[..i + 1]) == Motions(segs[..i]) + (if m.Some? then [m.value] else [])
  {
    assert segs[..i + 1][..i] == segs[..i];
  }

  lemma ClassifyAppend(motions: seq<Motion>, m: Motion, lower: seq<real>, upper: seq<real>)
    requires |motions| < |lower| && |motions| < |upper|
    ensures Classify(motions + [m], lower, upper)
            == Classify(motions, lower, upper) + [ClassOf(m, lower[|motions|], upper[|motions|])]
  {
  }

  /** Reading one more segment appends the class of its motion, if it has one, read against
      the next unused bounds. */
  lemma ClassifyStep(segs: seq<Segment>, i: nat, lower: seq<real>, upper: seq<real>)
    requires i < |segs|
    requires |Motions(segs[..i + 1])| <= |lower| && |Motions(segs[..i + 1])| <= |upper|
    ensures var m := MotionOf(segs[i].joint.jointType);
            Motions(segs[..i + 1]) == Motions(segs[..i]) + (if m.Some? then [m.value] else [])
    ensures var m := MotionOf(segs[i].joint.jointType);
            var done := Motions(segs[..i]);
            Classify(Motions(segs[..i + 1]), lower, upper)
            == Classify(done, lower, upper)
               + (if m.Some? then [ClassOf(m.value, lower[|done|], upper[|done|])] else [])
  {
    MotionsStep(segs, i);
    var m := MotionOf(segs[i].joint.jointType);
    if m.Some? {
      ClassifyAppend(Motions(segs[..i]), m.value, lower, upper);
    }
  }

  /** A continuous URDF joint is classified continuous exactly when no position override
      pulls either bound inside the float sentinels. */
  lemma ContinuousJointClass(j: UrdfJoint, overrides: map<string, LimitOverride>)
    requires j.jointType == Continuous
    ensures var b := DerivedBounds(j, overrides);
            var o := OverrideFor(overrides, j.name);
            ClassOf(Rotational, b.lower, b.upper) == ContinuousJoint
            <==> (o.maxPosition.None? || o.maxPosition.value >= FLOAT_MAX)
                 && (o.minPosition.None? || o.minPosition.value <= FLOAT_LOWEST)
  {
  }

  /** A non-continuous rotational joint whose hard range lies inside the float sentinels
      is never mistaken for a continuous one. */
  lemma LimitedJointIsRevolute(j: UrdfJoint, overrides: map<string, LimitOverride>)
    requires j.jointType != Continuous
    requires j.limits.upper < FLOAT_MAX || j.limits.lower > FLOAT_LOWEST
    ensures var b := DerivedBounds(j, overrides);
            ClassOf(Rotational, b.lower, b.upper) == RevoluteJoint
  {
  }
}
