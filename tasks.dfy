/** The stack of tasks handed to a velocity solver: the primary Cartesian task and the optional
    nullspace bias task, whose Jacobian selects the biased joints and whose desired velocity
    is a proportional law pulling each biased joint toward its target. */
module Tasks {
  import opened Wrappers
  import opened Kdl

  /** A task: a Jacobian and the velocity desired along its rows. */
  datatype Task = Task(jacobian: Matrix, desired: seq<real>)

  /** The output of the bias lookup: the selection Jacobian and the column picked per row. */
  datatype Selection = Selection(jacobian: Matrix, indices: seq<nat>)

  /** std::find over the joint names, as a position: the first position holding `x`, or
      `|names|` (the end) when `x` is absent. */
  function IndexOf(names: seq<string>, x: string): (r: nat)
    ensures r <= |names|
    ensures r < |names| ==> names[r] == x
    ensures r == |names| <==> x !in names
    ensures forall k :: 0 <= k < r ==> names[k] != x
  {
    if names == [] then 0
    else if names[0] == x then 0
    else 1 + IndexOf(names[1..], x)
  }

  /** A row of `n` zeros with a one in column `k`. */
  function UnitRow(k: nat, n: nat): seq<real>
  {
    seq(n, c => if c == k then 1.0 else 0.0)
  }

  /** One unit row per index: the 0/1 matrix picking out the indexed joints. */
  function SelectionMatrix(indices: seq<nat>, n: nat): Matrix
  {
    seq(|indices|, r requires 0 <= r < |indices| => UnitRow(indices[r], n))
  }

  /** Every bias name is a joint name. */
  predicate AllKnown(jointNames: seq<string>, biasNames: seq<string>)
  {
    forall ii :: 0 <= ii < |biasNames| ==> biasNames[ii] in jointNames
  }

  /** What nullspaceBiasTask produces: nothing when the bias values and names differ in
      number or some bias name is not a joint; otherwise, for bias row `ii`, the first
      position of the `ii`-th bias name among the joints, and a matrix with one row per bias
      joint and one column per joint holding a single one at that position. */
  function BiasSelection(jointNames: seq<string>, qBias: seq<real>, biasNames: seq<string>)
    : (r: Option<Selection>)
    ensures r.Some? <==> |qBias| == |biasNames| && AllKnown(jointNames, biasNames)
    ensures r.Some? ==>
      && |r.value.indices| == |biasNames|
      && forall ii :: 0 <= ii < |biasNames| ==>
           && r.value.indices[ii] < |jointNames|
           && jointNames[r.value.indices[ii]] == biasNames[ii]
           && forall k :: 0 <= k < r.value.indices[ii] ==> jointNames[k] != biasNames[ii]
    ensures r.Some? ==>
      && IsShape(r.value.jacobian, |biasNames|, |jointNames|)
      && forall ii, c :: 0 <= ii < |biasNames| && 0 <= c < |jointNames| ==>
           r.value.jacobian[ii][c] == if c == r.value.indices[ii] then 1.0 else 0.0
  {
    if |qBias| != |biasNames| || !AllKnown(jointNames, biasNames) then None
    else
      var indices := seq(|biasNames|, ii requires 0 <= ii < |biasNames| => IndexOf(jointNames, biasNames[ii]));
      Some(Selection(SelectionMatrix(indices, |jointNames|), indices))
  }

  /** The scalar product of two vectors of one length. */
  function Dot(a: seq<real>, b: seq<real>): real
    requires |a| == |b|
  {
    if a == [] then 0.0 else a[0] * b[0] + Dot(a[1..], b[1..])
  }

  /** All rows of `m` have the length of `v`. */
  predicate Conforms(m: Matrix, v: seq<real>)
  {
    forall r :: 0 <= r < |m| ==> |m[r]| == |v|
  }

  /** The matrix-vector product. */
  function MatVec(m: Matrix, v: seq<real>): seq<real>
    requires Conforms(m, v)
  {
    seq(|m|, r requires 0 <= r < |m| => Dot(m[r], v))
  }

  lemma {:induction false} DotZero(a: seq<real>, b: seq<real>)
    requires |a| == |b|
    requires forall j :: 0 <= j < |a| ==> a[j] == 0.0
    ensures Dot(a, b) == 0.0
  {
    if a != [] {
      DotZero(a[1..], b[1..]);
    }
  }

  /** A row with a single one in column `k` picks the `k`-th component. */
  lemma {:induction false} DotUnit(a: seq<real>, b: seq<real>, k: nat)
    requires |a| == |b| && k < |a|
    requires a[k] == 1.0 && forall j :: 0 <= j < |a| && j != k ==> a[j] == 0.0
    ensures Dot(a, b) == b[k]
  {
    if k == 0 {
      DotZero(a[1..], b[1..]);
    } else {
      DotUnit(a[1..], b[1..], k - 1);
    }
  }

  /** The bias Jacobian applied to a joint vector yields exactly the biased joints' values,
      row `ii` giving the value of the `ii`-th bias joint. */
  lemma SelectionPicksJoints(jointNames: seq<string>, qBias: seq<real>, biasNames: seq<string>, q: seq<real>)
    requires BiasSelection(jointNames, qBias, biasNames).Some?
    requires |q| == |jointNames|
    ensures var sel := BiasSelection(jointNames, qBias, biasNames).value;
            && Conforms(sel.jacobian, q)
            && MatVec(sel.jacobian, q) == seq(|biasNames|, ii requires 0 <= ii < |biasNames| => q[sel.indices[ii]])
  {
    var sel := BiasSelection(jointNames, qBias, biasNames).value;
    forall ii | 0 <= ii < |biasNames|
      ensures Dot(sel.jacobian[ii], q) == q[sel.indices[ii]]
    {
      DotUnit(sel.jacobian[ii], q, sel.indices[ii]);
    }
  }

  /** The "nullspace velocity" of one joint: the gain times the distance from its current
      value to its target, divided by the loop rate. */
  function BiasVelocity(gain: real, looprate: real, target: real, current: real): real
    requires looprate != 0.0
  {
    gain * (target - current) / looprate
  }

  /** The desired velocity of the bias task, row `ii` pulling bias joint `ii` toward its target. */
  function BiasDesired(gain: real, looprate: real, qBias: seq<real>, qIn: seq<real>, indices: seq<nat>)
    : seq<real>
    requires looprate != 0.0
    requires |indices| == |qBias|
    requires forall ii :: 0 <= ii < |indices| ==> indices[ii] < |qIn|
  {
    seq(|qBias|, ii requires 0 <= ii < |qBias| => BiasVelocity(gain, looprate, qBias[ii], qIn[indices[ii]]))
  }

  /** The bias task's desired velocity is the proportional law `gain * (qBias - J q) / rate`
      in terms of its own Jacobian `J`. */
  lemma BiasDesiredIsProportionalLaw(jointNames: seq<string>, qBias: seq<real>, biasNames: seq<string>,
                                     qIn: seq<real>, gain: real, looprate: real)
    requires BiasSelection(jointNames, qBias, biasNames).Some?
    requires |qIn| == |jointNames| && looprate != 0.0
    ensures var sel := BiasSelection(jointNames, qBias, biasNames).value;
            && Conforms(sel.jacobian, qIn)
            && var jq := MatVec(sel.jacobian, qIn);
               var desired := BiasDesired(gain, looprate, qBias, qIn, sel.indices);
               && |jq| == |desired| == |qBias|
               && forall ii :: 0 <= ii < |qBias| ==> desired[ii] == gain * (qBias[ii] - jq[ii]) / looprate
  {
    var sel := BiasSelection(jointNames, qBias, biasNames).value;
    SelectionPicksJoints(jointNames, qBias, biasNames, qIn);
  }

  /** With a positive gain and rate the bias velocity of a joint points toward its target:
      positive below the target, negative above it, and zero on it. */
  lemma BiasDesiredTowardTarget(gain: real, looprate: real, qBias: seq<real>, qIn: seq<real>,
                                indices: seq<nat>, ii: nat)
    requires gain > 0.0 && looprate > 0.0
    requires |indices| == |qBias| && ii < |qBias|
    requires forall k :: 0 <= k < |indices| ==> indices[k] < |qIn|
    ensures var d := BiasDesired(gain, looprate, qBias, qIn, indices)[ii];
            && (d > 0.0 <==> qBias[ii] > qIn[indices[ii]])
            && (d == 0.0 <==> qBias[ii] == qIn[indices[ii]])
            && (d < 0.0 <==> qBias[ii] < qIn[indices[ii]])
  {
    var e := qBias[ii] - qIn[indices[ii]];
    var p := gain * e;
    assert e > 0.0 ==> p > 0.0;
    assert e < 0.0 ==> p < 0.0;
    assert e == 0.0 ==> p == 0.0;
    assert BiasDesired(gain, looprate, qBias, qIn, indices)[ii] == p / looprate;
  }

  /** The primary task: the chain Jacobian and the twist's six components. */
  function PrimaryTask(jacobian: Matrix, v: Twist): (t: Task)
    ensures t.jacobian == jacobian
    ensures |t.desired| == 6 && forall i :: 0 <= i < 6 ==> t.desired[i] == v.At(i)
  {
    Task(jacobian, [v.vel.x, v.vel.y, v.vel.z, v.rot.x, v.rot.y, v.rot.z])
  }

  /** The stack of tasks CartToJntVel hands to the velocity solver, or nothing when the bias
      lookup fails: the primary task first, then the bias task when bias values are given. */
  function VelocityTasks(jointNames: seq<string>, jacobian: Matrix, v: Twist, qBias: seq<real>,
                         biasNames: seq<string>, qIn: seq<real>, gain: real, looprate: real)
    : Option<seq<Task>>
    requires |qBias| > 0 ==> looprate != 0.0
    requires |qIn| == |jointNames|
  {
    if |qBias| == 0 then Some([PrimaryTask(jacobian, v)])
    else match BiasSelection(jointNames, qBias, biasNames)
      case None => None
      case Some(sel) => Some([PrimaryTask(jacobian, v),
                              Task(sel.jacobian, BiasDesired(gain, looprate, qBias, qIn, sel.indices))])
  }

  /** Without bias values the stack holds the primary task alone; with them it fails exactly
      when the bias lookup fails, and otherwise holds the primary task followed by a bias task
      with one row per bias joint over all joint columns. */
  lemma VelocityTasksShape(jointNames: seq<string>, jacobian: Matrix, v: Twist, qBias: seq<real>,
                           biasNames: seq<string>, qIn: seq<real>, gain: real, looprate: real)
    requires |qBias| > 0 ==> looprate != 0.0
    requires |qIn| == |jointNames|
    ensures var r := VelocityTasks(jointNames, jacobian, v, qBias, biasNames, qIn, gain, looprate);
            && (|qBias| == 0 ==> r == Some([PrimaryTask(jacobian, v)]))
            && (|qBias| > 0 ==> (r.None? <==> |qBias| != |biasNames| || !AllKnown(jointNames, biasNames)))
            && (|qBias| > 0 && r.Some? ==>
                  && |r.value| == 2 && r.value[0] == PrimaryTask(jacobian, v)
                  && IsShape(r.value[1].jacobian, |qBias|, |jointNames|)
                  && |r.value[1].desired| == |qBias|)
  {
  }

  /** nullspaceBiasTask as written sizes the matrix with one row per JOINT and one column per
      BIAS value, then writes the one of bias row `ii` at column "index of joint `ii`". The
      writes stay inside that shape only if every bias joint's index is below the number of
      bias values (and there are no more bias values than joints). */
  predicate AsWrittenWritesInShape(jointNames: seq<string>, biasNames: seq<string>)
  {
    forall ii :: 0 <= ii < |biasNames| ==> ii < |jointNames| && IndexOf(jointNames, biasNames[ii]) < |biasNames|
  }

  /** No joint name occurs twice. */
  predicate Distinct(names: seq<string>)
  {
    forall i, j :: 0 <= i < j < |names| ==> names[i] != names[j]
  }

  /** Among distinct names, a name's first position is its only position. */
  lemma IndexOfDistinct(names: seq<string>, k: nat)
    requires Distinct(names) && k < |names|
    ensures IndexOf(names, names[k]) == k
  {
  }

  /** Biasing the second and fifth of six distinct joints: the shape written writes outside
      its 6-by-2 matrix, at row 1, column 4. */
  lemma AsWrittenMissesExample(names: seq<string>)
    requires |names| == 6 && Distinct(names)
    ensures IndexOf(names, names[4]) == 4
    ensures !AsWrittenWritesInShape(names, [names[1], names[4]])
  {
    var bias := [names[1], names[4]];
    IndexOfDistinct(names, 4);
    assert bias[1] == names[4];
  }

  /** The same request under the corrected shape: a 2-by-6 selection with ones at (0, 1) and
      (1, 4), and resolved indices [1, 4]. */
  lemma BiasSelectionExample(names: seq<string>, v2: real, v5: real)
    requires |names| == 6 && Distinct(names)
    ensures var r := BiasSelection(names, [v2, v5], [names[1], names[4]]);
            && r.Some? && r.value.indices == [1, 4]
            && IsShape(r.value.jacobian, 2, 6)
            && r.value.jacobian[0] == [0.0, 1.0, 0.0, 0.0, 0.0, 0.0]
            && r.value.jacobian[1] == [0.0, 0.0, 0.0, 0.0, 1.0, 0.0]
  {
    var bias := [names[1], names[4]];
    assert AllKnown(names, bias) by {
      assert bias[0] == names[1] && bias[1] == names[4];
    }
    var r := BiasSelection(names, [v2, v5], bias);
    assert r.value.indices[0] == 1 && r.value.indices[1] == 4 by {
      assert names[r.value.indices[0]] == names[1] && names[r.value.indices[1]] == names[4];
    }
    assert r.value.indices == [1, 4];
    forall c | 0 <= c < 6
      ensures r.value.jacobian[0][c] == [0.0, 1.0, 0.0, 0.0, 0.0, 0.0][c]
      ensures r.value.jacobian[1][c] == [0.0, 0.0, 0.0, 0.0, 1.0, 0.0][c]
    {
    }
  }
}
