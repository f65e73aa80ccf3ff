# SNS-IK facade, modelled in Dafny

This project models `SNS_IK`, the facade class of the SNS-IK library. It turns a kinematic
chain and per-joint limits into ready velocity and position inverse-kinematics solvers. The
model covers:

- the two constructors, including how the robot-model constructor derives each movable joint's
  position, velocity and acceleration bounds from the robot description and from optional
  per-joint overrides;
- `initialize`, which checks the limit tables against the chain's joint count and classifies
  every joint as revolute, continuous or prismatic;
- the `setVelocitySolveType` state machine, which picks one of five velocity-solver classes and
  wraps it in a position solver;
- `nullspaceBiasTask`, which turns bias joint names into a selection Jacobian and index list;
- task-stack assembly in `CartToJntVel` and the dispatch in `CartToJnt`.

Files:

- `wrappers.dfy`: `Option`.
- `kdl.dfy`: the KDL values the facade reads (joint types and their names, segments, chains,
  twists, frames, the joint count) and substring search.
- `joint_limits.dfy`: the robot-description joints, the per-joint bound formulas, the limit
  derivation loop and the joint classification.
- `solvers.dfy`: solve types, solver classes, and the solver objects as configuration records.
- `tasks.dfy`: the bias selection, the proportional bias law and the stack of tasks.
- `facade.dfy`: class `SnsIk`, whose fields are the facade's members and whose methods are its
  operations.

The state the facade mutates is held in `var` fields: the joint types, whether the Jacobian
solver was built, the solve type, the two solvers and the ready flag. `Valid()` ties them
together. Once the Jacobian solver is built, the tables fit the chain and the types are the
classification of the chain. The facade is ready exactly when a velocity solver is installed.
An installed solver pair is always the one the current solve type selects.

The numerical solvers and the Jacobian computation are parameters, passed as total functions:
`JacobianFn`, `VelocityIkFn` and `PositionIkFn`. The one thing assumed of the Jacobian
function (`JacobianChecksSize`) is that it fails on a joint vector whose length differs from the
chain's joint count. Nothing is assumed about the shape of the matrix it returns. This
assumption keeps the joint lookup at line 311 in range.

## Model

| member | source | states |
|---|---|---|
| `Kdl.TypeNameMarksMotion` | sns_ik_lib/src/sns_ik.cpp:182-191 | A KDL joint type name contains "Rot" exactly for the four rotational types and "Trans" exactly for the four translational ones, so the substring tests pick out the rotational and prismatic joints and skip the fixed joint. |
| `JointLimits.DescribedBounds` | sns_ik_lib/src/sns_ik.cpp:77-94 | A continuous joint gets the float sentinels as bounds and velocity 0. Any other joint's bounds lie within both its hard and its soft limits, each bound equals one of them, and its velocity is the magnitude of the hard velocity limit. |
| `JointLimits.ApplyOverride` | sns_ik_lib/src/sns_ik.cpp:95-118 | Position overrides can only narrow the bounds. A velocity override tightens a positive velocity and replaces a zero one by its magnitude. The acceleration is the magnitude of the override, or of the prior value, so it is never negative. |
| `JointLimits.DerivedBounds` | sns_ik_lib/src/sns_ik.cpp:76-118 | A joint's final bounds never widen its described bounds, and its velocity and acceleration are non-negative. |
| `JointLimits.DeriveLimits` | sns_ik_lib/src/sns_ik.cpp:65-125 | The five tables have one entry per movable joint. Entry k holds the derived bounds and the name of the k-th chain joint that is neither unknown nor fixed, with velocity and acceleration non-negative. |
| `JointLimits.MotionsCountJoints` | sns_ik_lib/src/sns_ik.cpp:180-197 | The classification loop appends one type for each joint the chain counts, so the count check after it cannot fail once the length checks have passed. |
| `JointLimits.ContinuousJointClass` | sns_ik_lib/src/sns_ik.cpp:82-84 | A continuous joint is classified continuous if and only if neither position override pulls a bound inside the float sentinels. The classification test itself is at lines 99-104 and 184-186. |
| `JointLimits.LimitedJointIsRevolute` | sns_ik_lib/src/sns_ik.cpp:184-188 | A rotational joint whose hard range lies inside the sentinels is classified revolute, whatever the overrides. |
| `Solvers.VariantForRoundTrip` | sns_ik_lib/src/sns_ik.cpp:210-234 | The switch is a bijection between the five listed solve types and the five solver classes, and it rejects every other value. |
| `Solvers.NewVelocitySolver` | sns_ik_lib/src/sns_ik.cpp:210-237 | No solver is built exactly for an unlisted type. Otherwise the solver is of the class that maps back to the type, has the chain's joint count, the loop rate and the capabilities, and has position limits turned off. |
| `Tasks.IndexOf` | sns_ik_lib/src/sns_ik.cpp:333-339 | The result is the first position holding the name. It is the list length exactly when the name is absent. |
| `Tasks.BiasSelection` | sns_ik_lib/src/sns_ik.cpp:319-344 | The lookup succeeds exactly when the bias values and names agree in number and every bias name is a joint name. The indices are first positions, and the matrix has one row per bias value and one column per joint, with a single 1 in row ii at column indices[ii]. |
| `Tasks.SelectionPicksJoints` | sns_ik_lib/src/sns_ik.cpp:339-341 | Multiplying the selection Jacobian by a joint vector yields the biased joints' entries, in bias order. |
| `Tasks.BiasDesiredIsProportionalLaw` | sns_ik_lib/src/sns_ik.cpp:307-313 | The bias task's desired velocity is gain · (q_bias − J q) / loop rate, with J its own Jacobian. The code recovers q's entries through the indices. |
| `Tasks.BiasDesiredTowardTarget` | sns_ik_lib/src/sns_ik.cpp:311 | With positive gain and loop rate, each bias velocity is positive, zero or negative exactly as the target is above, at or below the joint's position. |
| `Tasks.PrimaryTask` | sns_ik_lib/src/sns_ik.cpp:288-295 | The primary task carries the chain Jacobian, and its desired vector is the twist's six components in order. |
| `Tasks.VelocityTasksShape` | sns_ik_lib/src/sns_ik.cpp:288-315 | Without bias values the stack is the primary task alone. With bias values it fails exactly when the lookup fails, and otherwise it is the primary task followed by a bias task of shape (bias count) × (joint count). |
| `Tasks.AsWrittenMissesExample` | sns_ik_lib/src/sns_ik.cpp:329-340 | For any six distinct joints, biasing the second and the fifth makes the code write row 1, column 4 into a matrix it sized with 6 rows and 2 columns. |
| `Tasks.BiasSelectionExample` | sns_ik_lib/src/sns_ik.cpp:324-342 | The same request under the corrected shape gives a 2 × 6 selection with ones at (0, 1) and (1, 4), and indices [1, 4], whatever the six distinct names and the bias values. |
| `Facade.SnsIk.FromRobotModel` | sns_ik_lib/src/sns_ik.cpp:29-129 | Records the loop rate, eps, gain 1.0 and the solve type. Stores, per movable joint, the derived bounds and name, then initializes. The Jacobian solver is built, and the joints classified, exactly when the chain has a movable joint. The facade is ready exactly when, in addition, the type is listed. |
| `Facade.SnsIk.FromLimits` | sns_ik_lib/src/sns_ik.cpp:132-151 | Stores the given chain, tables and settings unchanged, then initializes. The Jacobian solver is built, and the joints classified, exactly when the tables fit a chain with a joint. The facade is ready exactly when, in addition, the type is listed. |
| `Facade.SnsIk.Initialize` | sns_ik_lib/src/sns_ik.cpp:153-205 | Succeeds, and leaves the facade ready, exactly when all five tables have one entry per joint, there is at least one joint and the solve type is listed. The Jacobian solver is built exactly when the tables fit, and the solve type is unchanged. |
| `Facade.SnsIk.ClassifyJoints` | sns_ik_lib/src/sns_ik.cpp:180-193 | Leaves one type per joint: the classification of the chain's rotational and translational joints by their bounds. |
| `Facade.SnsIk.SetVelocitySolveType` | sns_ik_lib/src/sns_ik.cpp:207-244 | Repeating the active type while a solver exists fails and changes nothing. An unlisted type fails and changes nothing. Any other request installs the new solver pair for that type, records the type and makes the facade ready. |
| `Facade.SameSolveTypeTwice` | sns_ik_lib/src/sns_ik.cpp:207-209 | Asking twice for the same listed type: the second request reports failure and keeps the first request's solver in place. |
| `Facade.SnsIk.NullspaceBiasTask` | sns_ik_lib/src/sns_ik.cpp:319-344 | The loop's result is exactly the bias selection: failure on a count mismatch or an unknown name, otherwise the indices and selection matrix. |
| `Facade.SnsIk.CartToJnt` | sns_ik_lib/src/sns_ik.cpp:246-268 | Not ready, or a failed bias lookup, gives -1 and leaves the output untouched. Otherwise the position solver is called with the plain query, or with the biased query carrying the bias Jacobian, indices and gain. |
| `Facade.SnsIk.NullspaceVelocity` | sns_ik_lib/src/sns_ik.cpp:307-313 | The loop fills each bias row with the proportional law's value for that row: the gain times the difference between the target and the indexed joint's position, divided by the loop rate. |
| `Facade.SnsIk.CartToJntVel` | sns_ik_lib/src/sns_ik.cpp:270-317 | Not ready, a failed Jacobian or a failed bias lookup gives -1 and leaves the output untouched. Otherwise the velocity solver receives exactly the primary task followed, when bias values are given, by the bias task, together with the joint positions. |
| `Facade.ConstructThenSolve` | sns_ik_lib/src/sns_ik.cpp:132-151 | Building from tables that fit a one-joint rotational chain classifies the joint from its bounds (lines 183-189). A later velocity solve without bias (lines 270-316) hands the solver the primary task alone. |
| `Facade.ReadyWithoutJacobianSolver` | sns_ik_lib/src/sns_ik.cpp:148-151 | A facade whose initialization failed becomes ready through setVelocitySolveType (lines 207-241), although its Jacobian solver was never built. |

## Behaviour of the code worth noting

The model follows the code in each case.

- Readiness: one would expect every solve to return -1 after a failed initialization; the
  error messages at lines 252 and 276 say the facade "was not properly initialized".
  `setVelocitySolveType` does not check that initialization succeeded: any listed type makes
  the facade ready. That includes the type it already has, because no velocity solver exists
  yet. `Facade.ReadyWithoutJacobianSolver` exhibits this state. In it, `CartToJntVel` would
  call a Jacobian solver that was never built. The model's `CartToJntVel` therefore requires
  that a ready facade has its Jacobian solver.
- Unresolved limits: the source reports "Could not determine joint limits for all
  non-continuous joints" (line 195) as an initialization failure. The check at lines 194-197 can never fire, because
  `JointLimits.MotionsCountJoints` and `Kdl.TypeNameMarksMotion` show that the loop appends
  exactly one type per counted joint. The model keeps the check as a branch that is never
  taken.
- Continuous detection: lines 184-185 compare against the sentinels with `>=` and `<=`. A
  continuous joint whose position override (lines 99-104) pulls a bound inside the float
  sentinels is therefore classified revolute. An override at or beyond the sentinels
  (`max_position` ≥ `FLT_MAX`, `min_position` ≤ `-FLT_MAX`) keeps it continuous
  (`JointLimits.ContinuousJointClass`).
- Bias counts: the count check in `nullspaceBiasTask` is reached only when bias values are
  given. Bias names without values produce no bias task and no error.
- The bias Jacobian shape at line 329 is transposed relative to the writes at line 340; see
  Findings.

## Left out

- Reading the robot description from the ROS parameter server, parsing it and extracting the
  chain (lines 38-63), including the early returns. The robot-model constructor takes the
  chain, the joints of the robot description (a map from name to joint) and the per-joint
  overrides as parameters. The overrides stand for the `<param>_planning/joint_limits/<name>/`
  entries.
- `Facade.SnsIk.FromRobotModel`: requires that every chain joint is in the robot description,
  and that the number of joints given a row (neither unknown nor fixed) equals the chain's
  joint count. Without these, the
  source dereferences a null joint or writes past the resized tables.
- `JointLimits.DescribedBounds`: a non-continuous joint always carries hard limits. The case
  of a null `limits` pointer, which the source would dereference, is not modelled.
- `Facade.SnsIk.CartToJntVel`: requires that a ready facade has built its Jacobian solver
  (see above), and that the loop rate is non-zero when bias values are given. The source would
  divide by a zero loop rate.
- KDL's Jacobian computation and the five velocity solvers and the position solver are
  parameters. Their numerics, and the loop rate and eps inside them, are not modelled.
- The prior contents of the output arrays handed to the solvers are not passed to them.
- Floating point: doubles are exact reals. The float sentinels are the exact value of
  `FLT_MAX` and its negation.
- Logging, `shared_ptr` ownership and the destructor. Solvers are values, so handle identity
  and sharing between the position and velocity solvers are captured only as equality.
- The nullspace gain is fixed at 1.0. No operation in this file changes it.
- On failure, `nullspaceBiasTask` may already have partly written its outputs. The model
  returns nothing on failure, and every caller discards those outputs.

## Findings

| source | as written | input that shows it | evidently intended | confidence | as-written member | corrected member |
|---|---|---|---|---|---|---|
| sns_ik_lib/src/sns_ik.cpp:329 | The bias Jacobian is sized with one row per joint and one column per bias value, but line 340 writes row = bias position, column = joint position. | Six distinct joints j1..j6, bias names [j2, j5]: the write at (1, 4) falls outside the 6 × 2 matrix. | One row per bias value and one column per joint, so that J q selects the biased joints. | high, not executed | `Tasks.AsWrittenMissesExample` | `Facade.SnsIk.NullspaceBiasTask` |
