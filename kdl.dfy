/** The parts of the Kinematics and Dynamics Library (KDL) that the SNS IK facade reads:
    a kinematic chain of segments, each carrying one joint, the type names of those joints,
    and the twist, frame and matrix values passed in and out of a solve. */
module Kdl {

  /** KDL::Joint::JointType. `Fixed` is the type KDL also calls `None`. */
  datatype JointType = RotAxis | RotX | RotY | RotZ | TransAxis | TransX | TransY | TransZ | Fixed

  /** KDL::Joint::getTypeName. */
  function TypeName(t: JointType): string
  {
    match t
    case RotAxis => "RotAxis"
    case RotX => "RotX"
    case RotY => "RotY"
    case RotZ => "RotZ"
    case TransAxis => "TransAxis"
    case TransX => "TransX"
    case TransY => "TransY"
    case TransZ => "TransZ"
    case Fixed => "None"
  }

  datatype Joint = Joint(name: string, jointType: JointType)
  datatype Segment = Segment(joint: Joint)
  datatype Chain = Chain(segments: seq<Segment>)

  /** The number of segments whose joint is not fixed. */
  function MovableCount(segs: seq<Segment>): nat
  {
    if segs == [] then 0
    else MovableCount(segs[..|segs| - 1]) + (if segs[|segs| - 1].joint.jointType != Fixed then 1 else 0)
  }

  /** KDL::Chain::getNrOfJoints. */
  function NrOfJoints(c: Chain): nat
  {
    MovableCount(c.segments)
  }

  /** A dense matrix, as a sequence of rows. */
  type Matrix = seq<seq<real>>

  /** Every row of `m` has `cols` entries and there are `rows` of them. */
  predicate IsShape(m: Matrix, rows: nat, cols: nat)
  {
    |m| == rows && forall r :: 0 <= r < |m| ==> |m[r]| == cols
  }

  datatype Vector = Vector(x: real, y: real, z: real) {

    /** KDL::Vector::operator[]. */
    function At(i: nat): real
      requires i < 3
    {
      if i == 0 then x else if i == 1 then y else z
    }
  }

  /** A Cartesian velocity: three linear and three angular components. */
  datatype Twist = Twist(vel: Vector, rot: Vector) {

    /** KDL::Twist::operator[]: the linear components first, then the angular ones. */
    function At(i: nat): real
      requires i < 6
    {
      if i < 3 then vel.At(i) else rot.At(i - 3)
    }
  }

  /** A pose: an origin and a rotation matrix, passed through to the position solver. */
  datatype Frame = Frame(origin: Vector, rotation: Matrix)

  /** `std::string::find(p) != npos`: `p` occurs somewhere in `s`. */
  predicate HasInfix(s: string, p: string)
    decreases |s|
  {
    if |s| < |p| then false else s[..|p|] == p || HasInfix(s[1..], p)
  }

  /** A string in which the first character of `p` never occurs does not contain `p`. */
  lemma {:induction false} NoInfixWithoutLead(s: string, p: string)
    requires |p| > 0
    requires forall i :: 0 <= i < |s| ==> s[i] != p[0]
    ensures !HasInfix(s, p)
    decreases |s|
  {
    if |p| <= |s| {
      assert s[..|p|][0] != p[0];
      NoInfixWithoutLead(s[1..], p);
    }
  }

  /** The four rotational type names contain "Rot", the four translational ones "Trans",
      and the fixed joint's name contains neither. */
  lemma TypeNameMarksMotion(t: JointType)
    ensures HasInfix(TypeName(t), "Rot") <==> t in {RotAxis, RotX, RotY, RotZ}
    ensures HasInfix(TypeName(t), "Trans") <==> t in {TransAxis, TransX, TransY, TransZ}
  {
    var name := TypeName(t);
    if t in {RotAxis, RotX, RotY, RotZ} {
      assert name[..3] == "Rot";
      NoInfixWithoutLead(name, "Trans");
    } else if t in {TransAxis, TransX, TransY, TransZ} {
      assert name[..5] == "Trans";
      NoInfixWithoutLead(name, "Rot");
    } else {
      NoInfixWithoutLead(name, "Rot");
      NoInfixWithoutLead(name, "Trans");
    }
  }
}
