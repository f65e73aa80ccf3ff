/** The velocity-solver variants the facade can select between, and the solver objects it
    builds. The solvers' numerical procedures are not modelled: a solver is a token that
    records which variant it is and everything it was configured with. */
module Solvers {
  import opened Wrappers
  import opened Kdl

  /** sns_ik::VelocitySolveType. `Unlisted` stands for any other value of the enumeration's
      underlying integer, which the selector's `default` branch rejects. */
  datatype VelocitySolveType =
    | Sns | SnsOptimal | SnsOptimalScaleMargin | SnsFast | SnsFastOptimal
    | Unlisted(code: int)

  /** The five velocity-solver classes: SNSVelocityIK, OSNSVelocityIK, OSNS_sm_VelocityIK,
      FSNSVelocityIK and FOSNSVelocityIK. */
  datatype SolverVariant = StandardSns | OptimalSns | OptimalScaleMarginSns | FastSns | FastOptimalSns

  /** The class the selector instantiates for a solve type; none for an unlisted value. */
  function VariantFor(t: VelocitySolveType): Option<SolverVariant>
  {
    match t
    case SnsOptimalScaleMargin => Some(OptimalScaleMarginSns)
    case SnsOptimal => Some(OptimalSns)
    case SnsFast => Some(FastSns)
    case SnsFastOptimal => Some(FastOptimalSns)
    case Sns => Some(StandardSns)
    case Unlisted(_) => None
  }

  /** The solve type that selects a solver class. */
  function SolveTypeOf(v: SolverVariant): VelocitySolveType
  {
    match v
    case StandardSns => Sns
    case OptimalSns => SnsOptimal
    case OptimalScaleMarginSns => SnsOptimalScaleMargin
    case FastSns => SnsFast
    case FastOptimalSns => SnsFastOptimal
  }

  /** Each listed solve type selects its own class, and each class is selected by exactly one
      solve type: the selection is a bijection between the five listed types and the five
      classes. */
  lemma VariantForRoundTrip(t: VelocitySolveType, v: SolverVariant)
    ensures VariantFor(t).None? <==> t.Unlisted?
    ensures VariantFor(t).Some? ==> SolveTypeOf(VariantFor(t).value) == t
    ensures VariantFor(SolveTypeOf(v)) == Some(v)
  {
  }

  /** The arguments of setJointsCapabilities. */
  datatype Capabilities = Capabilities(lower: seq<real>, upper: seq<real>, velocity: seq<real>,
                                       acceleration: seq<real>)

  /** A velocity solver: its class, the joint count and loop rate it was constructed with, the
      capabilities it was given and whether it enforces position limits itself. */
  datatype VelocitySolver = VelocitySolver(variant: SolverVariant, numJoints: nat, looprate: real,
                                           caps: Capabilities, usePositionLimits: bool)

  /** SNSPositionIK: a position solver over a chain that delegates to a velocity solver. */
  datatype PositionSolver = PositionSolver(chain: Chain, velocitySolver: VelocitySolver, eps: real)

  /** The velocity solver the selector builds for `t`: an instance of `t`'s class, configured
      with the capabilities and with its own position-limit enforcement turned off. */
  function NewVelocitySolver(t: VelocitySolveType, numJoints: nat, looprate: real, caps: Capabilities)
    : (r: Option<VelocitySolver>)
    ensures r.None? <==> t.Unlisted?
    ensures r.Some? ==>
      && SolveTypeOf(r.value.variant) == t
      && r.value.numJoints == numJoints && r.value.looprate == looprate
      && r.value.caps == caps && !r.value.usePositionLimits
  {
    match VariantFor(t)
    case None => None
    case Some(v) => Some(VelocitySolver(v, numJoints, looprate, caps, false))
  }

  /** The arguments of SNSPositionIK::CartToJnt: the initial joints, the target pose and the
      twist of tolerated pose error, and with a bias request also the bias targets, the bias
      Jacobian and indices, and the nullspace gain. */
  datatype PositionQuery =
    | PoseQuery(qInit: seq<real>, pose: Frame, bounds: Twist)
    | BiasedPoseQuery(qInit: seq<real>, pose: Frame, qBias: seq<real>, nsJacobian: Matrix,
                      indices: seq<nat>, gain: real, bounds: Twist)
}
