/** The LinUCB contextual bandit (mesh/neuro/bandits.py) over exact reals.
    Matrix inversion is any function that returns a true inverse whenever one exists. */
module Bandit {
  import opened LinearAlgebra

  datatype Strategy =
    | AggressiveAnchor
    | BalancedConcession
    | PaymentTermsTradeOff
    | RiskAwarePacing
    | RelationshipBuilding

  const ALL_STRATEGIES: seq<Strategy> :=
    [AggressiveAnchor, BalancedConcession, PaymentTermsTradeOff, RiskAwarePacing, RelationshipBuilding]

  datatype Observation = Observation(x: Vector, reward: real)

  /** What the bandit keeps for one strategy. */
  datatype Arm = Arm(a: Matrix, b: Vector, aInv: Matrix, theta: Vector, count: nat, totalReward: real)

  /** What is written to disk for one strategy: neither the inverse nor theta. */
  datatype SavedArm = SavedArm(a: Matrix, b: Vector, count: nat, totalReward: real)

  ghost predicate Invertible(a: Matrix, n: nat) {
    exists b: Matrix :: IsInverse(a, b, n)
  }

  ghost predicate Inverter(inv: Matrix -> Matrix) {
    && (forall a: Matrix, n: nat | IsMatrix(a, n) :: IsMatrix(inv(a), n))
    && (forall a: Matrix, n: nat | Invertible(a, n) :: IsInverse(a, inv(a), n))
  }

  ghost predicate Observations(obs: seq<Observation>, n: nat) {
    forall k | 0 <= k < |obs| :: |obs[k].x| == n
  }

  function FreshArm(n: nat, lambda: real): Arm
    requires lambda > 0.0
  {
    Arm(ScaledIdentity(n, lambda), Zero(n), ScaledIdentity(n, 1.0 / lambda), Zero(n), 0, 0.0)
  }

  ghost predicate Shaped(arm: Arm, n: nat) {
    IsMatrix(arm.a, n) && IsMatrix(arm.aInv, n) && |arm.b| == n && |arm.theta| == n
  }

  function Observe(inv: Matrix -> Matrix, arm: Arm, o: Observation): Arm
    requires IsMatrix(arm.a, |o.x|) && |arm.b| == |o.x|
    requires IsMatrix(inv(AddOuter(arm.a, 1.0, o.x)), |o.x|)
  {
    var a := AddOuter(arm.a, 1.0, o.x);
    var b := Plus(arm.b, Scale(o.reward, o.x));
    Arm(a, b, inv(a), Apply(inv(a), b), arm.count + 1, arm.totalReward + o.reward)
  }

  /** The arm after a whole history of observations. */
  ghost function ArmAfter(inv: Matrix -> Matrix, lambda: real, n: nat, obs: seq<Observation>): (arm: Arm)
    requires Inverter(inv) && lambda > 0.0 && Observations(obs, n)
    ensures Shaped(arm, n) && arm.count == |obs|
  {
    if obs == [] then FreshArm(n, lambda)
    else Observe(inv, ArmAfter(inv, lambda, n, obs[..|obs| - 1]), obs[|obs| - 1])
  }

  lemma {:induction false} ArmAfterOneMore(inv: Matrix -> Matrix, lambda: real, n: nat,
                                           obs: seq<Observation>, o: Observation)
    requires Inverter(inv) && lambda > 0.0 && Observations(obs, n) && |o.x| == n
    ensures Observations(obs + [o], n)
    ensures var arm := ArmAfter(inv, lambda, n, obs);
            && IsMatrix(inv(AddOuter(arm.a, 1.0, o.x)), n)
            && ArmAfter(inv, lambda, n, obs + [o]) == Observe(inv, arm, o)
  {
    hide Apply, AddOuter, Plus, Scale;
    assert (obs + [o])[..|obs|] == obs;
  }

  // ---- A and b are the sums the algorithm is defined by

  ghost function SumOuter(obs: seq<Observation>, n: nat, i: nat, j: nat): real
    requires Observations(obs, n) && i < n && j < n
  {
    if obs == [] then 0.0
    else
      var last := obs[|obs| - 1];
      SumOuter(obs[..|obs| - 1], n, i, j) + last.x[i] * last.x[j]
  }

  ghost function SumReward(obs: seq<Observation>, n: nat, i: nat): real
    requires Observations(obs, n) && i < n
  {
    if obs == [] then 0.0
    else
      var last := obs[|obs| - 1];
      SumReward(obs[..|obs| - 1], n, i) + last.reward * last.x[i]
  }

  ghost function SumOfRewards(obs: seq<Observation>): real {
    if obs == [] then 0.0 else SumOfRewards(obs[..|obs| - 1]) + obs[|obs| - 1].reward
  }

  /** The statistics kept are the number of observations and the sum of their rewards. */
  lemma {:induction false} StatisticsAreTotals(inv: Matrix -> Matrix, lambda: real, n: nat, obs: seq<Observation>)
    requires Inverter(inv) && lambda > 0.0 && Observations(obs, n)
    ensures ArmAfter(inv, lambda, n, obs).count == |obs|
    ensures ArmAfter(inv, lambda, n, obs).totalReward == SumOfRewards(obs)
  {
    hide Inverter, Apply, AddOuter, Plus, Scale, ScaledIdentity, Zero;
    if obs != [] {
      StatisticsAreTotals(inv, lambda, n, obs[..|obs| - 1]);
    }
  }

  /** Entry by entry, A is lambda * I plus the sum of outer products, b the sum of reward * x. */
  lemma {:induction false} AccumulatedSums(inv: Matrix -> Matrix, lambda: real, n: nat, obs: seq<Observation>,
                                           i: nat, j: nat)
    requires Inverter(inv) && lambda > 0.0 && Observations(obs, n) && i < n && j < n
    ensures ArmAfter(inv, lambda, n, obs).a[i][j] == (if i == j then lambda else 0.0) + SumOuter(obs, n, i, j)
    ensures ArmAfter(inv, lambda, n, obs).b[i] == SumReward(obs, n, i)
  {
    hide Inverter, Apply, AddOuter, Plus, Scale, ScaledIdentity, Zero;
    if obs == [] {
      FreshEntry(n, lambda, i, j);
    } else {
      var init, last := obs[..|obs| - 1], obs[|obs| - 1];
      AccumulatedSums(inv, lambda, n, init, i, j);
      OneMoreEntry(ArmAfter(inv, lambda, n, init).a, last.x, i, j);
      OneMoreReward(ArmAfter(inv, lambda, n, init).b, last.reward, last.x, i);
    }
  }

  lemma FreshEntry(n: nat, lambda: real, i: nat, j: nat)
    requires lambda > 0.0 && i < n && j < n
    ensures FreshArm(n, lambda).a[i][j] == (if i == j then lambda else 0.0) && FreshArm(n, lambda).b[i] == 0.0
  {
  }

  lemma OneMoreEntry(m: Matrix, x: Vector, i: nat, j: nat)
    requires IsMatrix(m, |x|) && i < |x| && j < |x|
    ensures AddOuter(m, 1.0, x)[i][j] == m[i][j] + x[i] * x[j]
  {
  }

  lemma OneMoreReward(b: Vector, reward: real, x: Vector, i: nat)
    requires |b| == |x| && i < |x|
    ensures Plus(b, Scale(reward, x))[i] == b[i] + reward * x[i]
  {
  }

  // ---- the linear system stays solved

  ghost predicate Definite(m: Matrix, n: nat, lambda: real) {
    && IsMatrix(m, n)
    && forall v: Vector {:trigger Dot(v, Apply(m, v))} | |v| == n :: Dot(v, Apply(m, v)) >= Times(lambda, Dot(v, v))
  }

  ghost predicate Solved(arm: Arm, n: nat, lambda: real) {
    && Shaped(arm, n)
    && Symmetric(arm.a, n)
    && Definite(arm.a, n, lambda)
    && IsInverse(arm.a, arm.aInv, n)
    && Apply(arm.a, arm.theta) == arm.b
  }

  lemma {:induction false} FreshArmSolved(n: nat, lambda: real)
    requires lambda > 0.0
    ensures Solved(FreshArm(n, lambda), n, lambda)
  {
    hide Times, Dot, Apply, IsInverse, Symmetric;
    var arm := FreshArm(n, lambda);
    ScaledIdentitySymmetric(n, lambda);
    Reciprocal(lambda);
    ScaledIdentityInverse(n, lambda, 1.0 / lambda);
    forall v: Vector | |v| == n
      ensures Dot(v, Apply(arm.a, v)) >= Times(lambda, Dot(v, v))
    {
      ApplyScaledIdentity(n, lambda, v);
      DotScale(v, lambda, v);
    }
    ApplyScaledIdentity(n, lambda, Zero(n));
    ScaledZero(n, lambda);
  }

  lemma Reciprocal(c: real)
    requires c > 0.0
    ensures Times(c, 1.0 / c) == 1.0
  {
  }

  lemma ScaledZero(n: nat, c: real)
    ensures Scale(c, Zero(n)) == Zero(n)
  {
  }

  lemma {:induction false} AddOuterDefinite(m: Matrix, x: Vector, lambda: real)
    requires Definite(m, |x|, lambda)
    ensures Definite(AddOuter(m, 1.0, x), |x|, lambda)
  {
    hide Times, Dot, Apply, Definite, AddOuter, IsMatrix;
    DefiniteAt(m, |x|, lambda, x);
    forall v: Vector | |v| == |x|
      ensures Dot(v, Apply(AddOuter(m, 1.0, x), v)) >= Times(lambda, Dot(v, v))
    {
      DefiniteAt(m, |x|, lambda, v);
      AddOuterForm(m, x, v);
    }
    DefiniteIntro(AddOuter(m, 1.0, x), |x|, lambda);
  }

  lemma DefiniteAt(m: Matrix, n: nat, lambda: real, v: Vector)
    requires Definite(m, n, lambda) && |v| == n
    ensures IsMatrix(m, n) && Dot(v, Apply(m, v)) >= Times(lambda, Dot(v, v))
  {
  }

  lemma DefiniteIntro(m: Matrix, n: nat, lambda: real)
    requires IsMatrix(m, n)
    requires forall v: Vector {:trigger Dot(v, Apply(m, v))} | |v| == n ::
             Dot(v, Apply(m, v)) >= Times(lambda, Dot(v, v))
    ensures Definite(m, n, lambda)
  {
  }

  lemma {:induction false} AddOuterForm(m: Matrix, x: Vector, v: Vector)
    requires IsMatrix(m, |x|) && |v| == |x|
    ensures Dot(v, Apply(AddOuter(m, 1.0, x), v)) == Dot(v, Apply(m, v)) + Times(Dot(x, v), Dot(x, v))
    ensures Times(Dot(x, v), Dot(x, v)) >= 0.0
  {
    hide Times, Dot, Apply, Plus, Scale, AddOuter;
    ApplyAddOuter(m, 1.0, x, v);
    TimesLaws(Dot(x, v), 0.0, 0.0);
    DotLinear(v, Apply(m, v), Dot(x, v), x);
    DotSymmetric(x, v);
  }

  /** A definite matrix has a non-negative inverse width. */
  lemma {:induction false} InverseWidthNonNegative(a: Matrix, b: Matrix, n: nat, lambda: real, v: Vector)
    requires Definite(a, n, lambda) && IsInverse(a, b, n) && |v| == n && lambda > 0.0
    ensures Dot(v, Apply(b, v)) >= 0.0
  {
    hide Times, Dot, Apply, IsInverse;
    InverseAt(a, b, n, v);
    var w := Apply(b, v);
    DotSymmetric(v, w);
    DotSelfNonNegative(w);
    TimesNonNegative(lambda, Dot(w, w));
  }

  lemma TimesNonNegative(a: real, b: real)
    requires a >= 0.0 && b >= 0.0
    ensures Times(a, b) >= 0.0
  {
  }

  lemma {:induction false} ObserveSolved(inv: Matrix -> Matrix, arm: Arm, o: Observation, lambda: real)
    requires Inverter(inv) && lambda > 0.0 && Solved(arm, |o.x|, lambda)
    ensures IsMatrix(inv(AddOuter(arm.a, 1.0, o.x)), |o.x|)
    ensures Solved(Observe(inv, arm, o), |o.x|, lambda)
  {
    hide Times, Dot, Apply, AddOuter, Plus, Scale, IsInverse, Symmetric, Definite;
    var n := |o.x|;
    var s := Dot(o.x, Apply(arm.aInv, o.x));
    InverseWidthNonNegative(arm.a, arm.aInv, n, lambda, o.x);
    Reciprocal(1.0 + s);
    var c := 1.0 / (1.0 + s);
    TimesLaws(c, 1.0 + s, 0.0);
    InverseSymmetric(arm.a, arm.aInv, n);
    RankOneInverse(arm.a, arm.aInv, o.x, c);
    AddOuterSymmetric(arm.a, 1.0, o.x);
    AddOuterDefinite(arm.a, o.x, lambda);
    var a := AddOuter(arm.a, 1.0, o.x);
    assert Invertible(a, n);
    InverseAt(a, inv(a), n, Plus(arm.b, Scale(o.reward, o.x)));
  }

  /** After any history: A is symmetric and at least lambda * I, the stored inverse is
      its inverse, and A * theta = b. */
  lemma {:induction false} AlwaysSolved(inv: Matrix -> Matrix, lambda: real, n: nat, obs: seq<Observation>)
    requires Inverter(inv) && lambda > 0.0 && Observations(obs, n)
    ensures Solved(ArmAfter(inv, lambda, n, obs), n, lambda)
  {
    hide Inverter, Solved;
    if obs == [] {
      FreshArmSolved(n, lambda);
    } else {
      var init := obs[..|obs| - 1];
      AlwaysSolved(inv, lambda, n, init);
      ObserveSolved(inv, ArmAfter(inv, lambda, n, init), obs[|obs| - 1], lambda);
    }
  }

  // ---- the confidence width

  ghost function Width(arm: Arm, v: Vector): real
    requires Shaped(arm, |v|)
  {
    Dot(v, Apply(arm.aInv, v))
  }

  /** What an update along x takes off the width of v, where t = v . A^-1 x and s is the width of x. */
  function WidthLoss(t: real, s: real): (r: real)
    requires s >= 0.0
    ensures r >= 0.0
  {
    t * t / (1.0 + s)
  }

  /** One more observation narrows the width of every direction v by exactly this much. */
  lemma {:induction false} WidthDrop(inv: Matrix -> Matrix, lambda: real, n: nat,
                                     obs: seq<Observation>, o: Observation, v: Vector)
    requires Inverter(inv) && lambda > 0.0 && Observations(obs, n) && |o.x| == n && |v| == n
    ensures var arm := ArmAfter(inv, lambda, n, obs);
            && Width(arm, o.x) >= 0.0
            && Width(ArmAfter(inv, lambda, n, obs + [o]), v)
               == Width(arm, v) - WidthLoss(Dot(v, Apply(arm.aInv, o.x)), Width(arm, o.x))
  {
    hide Times, Dot, Apply, AddOuter, Plus, Scale, IsInverse, Symmetric, Definite, IsMatrix, Inverter, WidthLoss;
    var arm, arm' := ArmAfter(inv, lambda, n, obs), ArmAfter(inv, lambda, n, obs + [o]);
    assert (obs + [o])[..|obs|] == obs;
    AlwaysSolved(inv, lambda, n, obs);
    AlwaysSolved(inv, lambda, n, obs + [o]);
    InverseWidthNonNegative(arm.a, arm.aInv, n, lambda, o.x);
    InverseWidthDrop(arm.a, arm.aInv, arm'.aInv, o.x, v);
  }

  lemma {:induction false} InverseWidthDrop(a: Matrix, b: Matrix, b': Matrix, x: Vector, v: Vector)
    requires |v| == |x| && IsMatrix(a, |x|) && IsMatrix(b, |x|) && IsMatrix(b', |x|)
    requires Symmetric(a, |x|) && IsInverse(a, b, |x|) && IsInverse(AddOuter(a, 1.0, x), b', |x|)
    requires Dot(x, Apply(b, x)) >= 0.0
    ensures var t := Dot(v, Apply(b, x));
            Dot(v, Apply(b', v)) == Dot(v, Apply(b, v)) - WidthLoss(t, Dot(x, Apply(b, x)))
  {
    hide Times, Dot, Apply, AddOuter, Plus, Scale, IsInverse, Symmetric, IsMatrix, WidthLoss;
    var n, w := |x|, Apply(b', v);
    InverseSymmetric(a, b, n);
    SymmetricAt(b, n, x, v);
    DotSymmetric(Apply(b, x), v);
    InverseAt(AddOuter(a, 1.0, x), b', n, v);
    InverseAt(a, b, n, w);
    UpdatedSolution(a, b, x, v, w);
    SolveDrop(Dot(x, w), Dot(x, Apply(b, x)), Dot(v, Apply(b, x)), Dot(v, w), Dot(v, Apply(b, v)));
  }

  // When (A + x x^T) w = v, the old inverse b relates w to b v and b x.
  lemma {:induction false} UpdatedSolution(a: Matrix, b: Matrix, x: Vector, v: Vector, w: Vector)
    requires |v| == |w| == |x| && IsMatrix(a, |x|) && IsMatrix(b, |x|)
    requires Apply(AddOuter(a, 1.0, x), w) == v && Apply(b, Apply(a, w)) == w
    ensures Dot(x, w) + Times(Dot(x, w), Dot(x, Apply(b, x))) == Dot(x, Apply(b, v))
    ensures Dot(v, w) + Times(Dot(x, w), Dot(v, Apply(b, x))) == Dot(v, Apply(b, v))
  {
    hide Times, Dot, Apply, AddOuter, Plus, Scale, IsMatrix;
    var g := Dot(x, w);
    ApplyAddOuter(a, 1.0, x, w);
    TimesLaws(g, 0.0, 0.0);
    ApplyLinear(b, Apply(a, w), g, x);
    DotLinear(x, w, g, Apply(b, x));
    DotLinear(v, w, g, Apply(b, x));
  }

  lemma SolveDrop(g: real, s: real, t: real, after: real, before: real)
    requires s >= 0.0 && g + Times(g, s) == t && after + Times(g, t) == before
    ensures after == before - WidthLoss(t, s)
  {
    assert g * (1.0 + s) == t;
    assert g == t / (1.0 + s);
  }

  /** The width of any direction never grows, over any further observations,
      and always lies between zero and |v|^2 / lambda. */
  lemma {:induction false} WidthNeverGrows(inv: Matrix -> Matrix, lambda: real, n: nat,
                                           obs: seq<Observation>, more: seq<Observation>, v: Vector)
    requires Inverter(inv) && lambda > 0.0 && |v| == n
    requires Observations(obs, n) && Observations(more, n)
    ensures 0.0 <= Width(ArmAfter(inv, lambda, n, obs + more), v) <= Width(ArmAfter(inv, lambda, n, obs), v)
    ensures Width(ArmAfter(inv, lambda, n, obs), v) <= Dot(v, v) / lambda
  {
    hide Inverter, Width, Dot, ArmAfter;
    WidthShrinks(inv, lambda, n, obs, more, v);
    assert [] + obs == obs;
    WidthShrinks(inv, lambda, n, [], obs, v);
    FreshWidth(inv, lambda, n, v);
  }

  lemma FreshWidth(inv: Matrix -> Matrix, lambda: real, n: nat, v: Vector)
    requires Inverter(inv) && lambda > 0.0 && |v| == n
    ensures Width(ArmAfter(inv, lambda, n, []), v) == Dot(v, v) / lambda
  {
    hide Inverter, Dot, Apply;
    ApplyScaledIdentity(n, 1.0 / lambda, v);
    DotScale(v, 1.0 / lambda, v);
    Quotient(Dot(v, v), lambda);
  }

  lemma Quotient(a: real, c: real)
    requires c > 0.0
    ensures Times(1.0 / c, a) == a / c
  {
    var r := 1.0 / c;
    assert r * c == 1.0;
    assert (r * a) * c == a;
  }

  lemma {:induction false} WidthShrinks(inv: Matrix -> Matrix, lambda: real, n: nat,
                                        obs: seq<Observation>, more: seq<Observation>, v: Vector)
    requires Inverter(inv) && lambda > 0.0 && |v| == n
    requires Observations(obs, n) && Observations(more, n)
    ensures 0.0 <= Width(ArmAfter(inv, lambda, n, obs + more), v) <= Width(ArmAfter(inv, lambda, n, obs), v)
  {
    hide Inverter, Solved, Width, Apply, Observe, WidthLoss;
    if more == [] {
      assert obs + more == obs;
      WidthSign(inv, lambda, n, obs, v);
    } else {
      var last := more[|more| - 1];
      var init := obs + more[..|more| - 1];
      assert (obs + more)[..|obs + more| - 1] == init && (obs + more)[|obs + more| - 1] == last;
      WidthShrinks(inv, lambda, n, obs, more[..|more| - 1], v);
      assert obs + more == init + [last];
      WidthDrop(inv, lambda, n, init, last, v);
      WidthSign(inv, lambda, n, obs + more, v);
    }
  }

  lemma {:induction false} WidthSign(inv: Matrix -> Matrix, lambda: real, n: nat, obs: seq<Observation>, v: Vector)
    requires Inverter(inv) && lambda > 0.0 && Observations(obs, n) && |v| == n
    ensures Width(ArmAfter(inv, lambda, n, obs), v) >= 0.0
  {
    hide Inverter, Apply;
    AlwaysSolved(inv, lambda, n, obs);
    var arm := ArmAfter(inv, lambda, n, obs);
    InverseWidthNonNegative(arm.a, arm.aInv, n, lambda, v);
  }

  // ---- theta is the ridge-regression estimate

  /** lambda * |w|^2 plus the squared prediction error of w on every observation. */
  ghost function RidgeLoss(lambda: real, n: nat, obs: seq<Observation>, w: Vector): real
    requires Observations(obs, n) && |w| == n
  {
    if obs == [] then Times(lambda, Dot(w, w))
    else
      var last := obs[|obs| - 1];
      var error := last.reward - Dot(last.x, w);
      RidgeLoss(lambda, n, obs[..|obs| - 1], w) + Times(error, error)
  }

  ghost function SumSquaredRewards(obs: seq<Observation>): real {
    if obs == [] then 0.0
    else
      var r := obs[|obs| - 1].reward;
      SumSquaredRewards(obs[..|obs| - 1]) + Times(r, r)
  }

  lemma {:induction false} RidgeLossQuadratic(inv: Matrix -> Matrix, lambda: real, n: nat,
                                              obs: seq<Observation>, w: Vector)
    requires Inverter(inv) && lambda > 0.0 && Observations(obs, n) && |w| == n
    ensures var arm := ArmAfter(inv, lambda, n, obs);
            RidgeLoss(lambda, n, obs, w)
            == Dot(w, Apply(arm.a, w)) - 2.0 * Dot(w, arm.b) + SumSquaredRewards(obs)
  {
    hide Times, Dot, Apply, AddOuter, Plus, Scale, IsMatrix, Inverter;
    if obs == [] {
      ApplyScaledIdentity(n, lambda, w);
      DotScale(w, lambda, w);
      DotZero(w, n);
    } else {
      var init, last := obs[..|obs| - 1], obs[|obs| - 1];
      RidgeLossQuadratic(inv, lambda, n, init, w);
      var arm := ArmAfter(inv, lambda, n, init);
      AddOuterForm(arm.a, last.x, w);
      DotLinear(w, arm.b, last.reward, last.x);
      DotSymmetric(w, last.x);
      SquaredError(last.reward, Dot(last.x, w));
    }
  }

  lemma SquaredError(r: real, p: real)
    ensures Times(r - p, r - p) == Times(p, p) - 2.0 * Times(r, p) + Times(r, r)
  {
    assert (r - p) * (r - p) == r * r - 2.0 * (r * p) + p * p;
  }

  /** Completing the square around the solution of A * theta = b. */
  lemma {:induction false} CompleteSquare(a: Matrix, theta: Vector, w: Vector, n: nat)
    requires Symmetric(a, n) && IsMatrix(a, n) && |theta| == |w| == n
    ensures var d := Plus(w, Scale(-1.0, theta));
            Dot(d, Apply(a, d))
            == Dot(w, Apply(a, w)) - 2.0 * Dot(w, Apply(a, theta)) + Dot(theta, Apply(a, theta))
  {
    hide Times, Dot, Apply, Plus, Scale, IsMatrix, Symmetric;
    var d := Plus(w, Scale(-1.0, theta));
    var ad := Apply(a, d);
    ApplyLinear(a, w, -1.0, theta);
    DotLinearLeft(ad, w, -1.0, theta);
    DotLinear(w, Apply(a, w), -1.0, Apply(a, theta));
    DotLinear(theta, Apply(a, w), -1.0, Apply(a, theta));
    SymmetricAt(a, n, theta, w);
    DotSymmetric(Apply(a, theta), w);
    Negate(Dot(theta, ad));
    Negate(Dot(w, Apply(a, theta)));
    Negate(Dot(theta, Apply(a, theta)));
  }

  lemma Negate(t: real)
    ensures Times(-1.0, t) == -t
  {
  }

  /** theta is the unique minimiser of the ridge loss: any other weight vector w does
      worse, by at least lambda times its squared distance from theta. */
  lemma {:induction false} ThetaMinimisesRidgeLoss(inv: Matrix -> Matrix, lambda: real, n: nat,
                                                   obs: seq<Observation>, w: Vector)
    requires Inverter(inv) && lambda > 0.0 && Observations(obs, n) && |w| == n
    ensures var theta := ArmAfter(inv, lambda, n, obs).theta;
            var d := Plus(w, Scale(-1.0, theta));
            RidgeLoss(lambda, n, obs, w) >= RidgeLoss(lambda, n, obs, theta) + Times(lambda, Dot(d, d))
  {
    hide Times, Dot, Apply, Plus, Scale, IsMatrix, Symmetric, Inverter, IsInverse, Definite, ArmAfter, RidgeLoss;
    AlwaysSolved(inv, lambda, n, obs);
    var arm := ArmAfter(inv, lambda, n, obs);
    RidgeLossQuadratic(inv, lambda, n, obs, w);
    RidgeLossQuadratic(inv, lambda, n, obs, arm.theta);
    CompleteSquare(arm.a, arm.theta, w, n);
    DefiniteAt(arm.a, n, lambda, Plus(w, Scale(-1.0, arm.theta)));
  }

  // ---- the confidence bound

  /** What a strategy's arm promises in a context: the reward it predicts and a bonus for what it does not know. */
  ghost function Bound(alpha: real, sqrt: real -> real, arm: Arm, x: Vector, noise: real): real
    requires Shaped(arm, |x|)
  {
    Dot(x, arm.theta) + Times(alpha, sqrt(Width(arm, x))) + (if arm.count == 0 then noise else 0.0)
  }

  ghost predicate RootLike(sqrt: real -> real) {
    forall a: real, b: real | 0.0 <= a <= b :: 0.0 <= sqrt(a) <= sqrt(b)
  }

  lemma RootOrdered(sqrt: real -> real, a: real, b: real)
    requires RootLike(sqrt) && 0.0 <= a <= b
    ensures 0.0 <= sqrt(a) <= sqrt(b)
  {
  }

  lemma TimesOrdered(alpha: real, a: real, b: real)
    requires alpha >= 0.0 && 0.0 <= a <= b
    ensures 0.0 <= Times(alpha, a) <= Times(alpha, b)
  {
  }

  /** The bound is optimistic and less so the more is known: it is never under the predicted reward, and the bonus over
      that prediction never grows with further observations, in any context, whatever the rewards. */
  lemma {:induction false} BonusNeverGrows(inv: Matrix -> Matrix, lambda: real, n: nat, obs: seq<Observation>,
                                           more: seq<Observation>, x: Vector, alpha: real, sqrt: real -> real,
                                           noise: real)
    requires Inverter(inv) && lambda > 0.0 && Observations(obs, n) && Observations(more, n) && |x| == n
    requires alpha >= 0.0 && noise >= 0.0 && RootLike(sqrt)
    ensures Observations(obs + more, n)
    ensures var early, late := ArmAfter(inv, lambda, n, obs), ArmAfter(inv, lambda, n, obs + more);
            var first, later := Bound(alpha, sqrt, early, x, noise), Bound(alpha, sqrt, late, x, noise);
            && first >= Dot(x, early.theta)
            && 0.0 <= later - Dot(x, late.theta) <= first - Dot(x, early.theta)
  {
    hide Times, Dot, Apply, Inverter, ArmAfter, Width, RootLike;
    WidthSign(inv, lambda, n, obs, x);
    WidthNeverGrows(inv, lambda, n, obs, more, x);
    var early, late := ArmAfter(inv, lambda, n, obs), ArmAfter(inv, lambda, n, obs + more);
    RootOrdered(sqrt, Width(late, x), Width(early, x));
    TimesOrdered(alpha, sqrt(Width(late, x)), sqrt(Width(early, x)));
  }

  // ---- saving and loading

  function Save(arm: Arm): SavedArm {
    SavedArm(arm.a, arm.b, arm.count, arm.totalReward)
  }

  /** Loading recomputes the inverse and theta from what was saved. */
  function Restore(inv: Matrix -> Matrix, saved: SavedArm): Arm
    requires IsMatrix(inv(saved.a), |saved.b|)
  {
    Arm(saved.a, saved.b, inv(saved.a), Apply(inv(saved.a), saved.b), saved.count, saved.totalReward)
  }

  /** Saving and loading gives back the whole arm, after any history and also before the first one. */
  lemma {:induction false} RestoreSave(inv: Matrix -> Matrix, lambda: real, n: nat, obs: seq<Observation>)
    requires Inverter(inv) && lambda > 0.0 && Observations(obs, n)
    ensures var arm := ArmAfter(inv, lambda, n, obs);
            IsMatrix(inv(arm.a), n) && Restore(inv, Save(arm)) == arm
  {
    hide Times, Dot, IsInverse, Symmetric, Definite;
    var arm := ArmAfter(inv, lambda, n, obs);
    AlwaysSolved(inv, lambda, n, obs);
    assert Invertible(arm.a, n);
    InverseUnique(arm.a, arm.aInv, inv(arm.a), n);
    SolutionUnique(arm.a, arm.aInv, arm.theta, arm.b, n);
  }

  lemma {:induction false} SolutionUnique(a: Matrix, aInv: Matrix, theta: Vector, b: Vector, n: nat)
    requires IsInverse(a, aInv, n) && |theta| == n && Apply(a, theta) == b
    ensures |b| == n && Apply(aInv, b) == theta
  {
    hide Apply;
  }

  // ---- the bandit object

  /** The arm is the one these observations call for. */
  ghost predicate After(inv: Matrix -> Matrix, lambda: real, n: nat, arm: Arm, obs: seq<Observation>) {
    Inverter(inv) && lambda > 0.0 && Observations(obs, n) && arm == ArmAfter(inv, lambda, n, obs)
  }

  lemma AfterOneMore(inv: Matrix -> Matrix, lambda: real, n: nat, arm: Arm, obs: seq<Observation>, o: Observation)
    requires After(inv, lambda, n, arm, obs) && |o.x| == n
    ensures Shaped(arm, n) && IsMatrix(inv(AddOuter(arm.a, 1.0, o.x)), n)
    ensures After(inv, lambda, n, Observe(inv, arm, o), obs + [o])
  {
    hide Inverter, Observe, AddOuter;
    ArmAfterOneMore(inv, lambda, n, obs, o);
  }

  lemma AfterNothing(inv: Matrix -> Matrix, lambda: real, n: nat)
    requires Inverter(inv) && lambda > 0.0
    ensures After(inv, lambda, n, FreshArm(n, lambda), [])
  {
    hide Inverter;
  }

  datatype SavedBandit = SavedBandit(strategies: seq<Strategy>, alpha: real, lambdaReg: real,
                                     contextDim: nat, arms: map<Strategy, SavedArm>)

  /** The file contents for arms that have seen the given histories. */
  ghost predicate SavedFrom(saved: SavedBandit, inv: Matrix -> Matrix, past: map<Strategy, seq<Observation>>) {
    && Inverter(inv) && saved.lambdaReg > 0.0 && saved.strategies != []
    && forall a | a in saved.strategies ::
         && a in saved.arms && a in past && Observations(past[a], saved.contextDim)
         && saved.arms[a] == Save(ArmAfter(inv, saved.lambdaReg, saved.contextDim, past[a]))
  }

  lemma {:induction false} RestoredArm(saved: SavedBandit, inv: Matrix -> Matrix,
                                       past: map<Strategy, seq<Observation>>, a: Strategy)
    requires SavedFrom(saved, inv, past) && a in saved.strategies
    ensures a in saved.arms && a in past
    ensures var s := saved.arms[a];
            IsMatrix(inv(s.a), |s.b|) && After(inv, saved.lambdaReg, saved.contextDim, Restore(inv, s), past[a])
  {
    hide Times, Dot, Apply, Plus, Scale, IsMatrix, ArmAfter;
    RestoreSave(inv, saved.lambdaReg, saved.contextDim, past[a]);
  }

  lemma SavedFromBasics(saved: SavedBandit, inv: Matrix -> Matrix, past: map<Strategy, seq<Observation>>)
    requires SavedFrom(saved, inv, past)
    ensures Inverter(inv) && saved.lambdaReg > 0.0 && saved.strategies != []
  {
  }

  /** The bandit's dictionaries, as values. */
  datatype Tables = Tables(a: map<Strategy, Matrix>, b: map<Strategy, Vector>, theta: map<Strategy, Vector>,
                           aInv: map<Strategy, Matrix>, counts: map<Strategy, nat>, totals: map<Strategy, real>)
  {
    predicate Known(s: Strategy) {
      s in a && s in b && s in theta && s in aInv && s in counts && s in totals
    }

    function ArmOf(s: Strategy): Arm
      requires Known(s)
    {
      Arm(a[s], b[s], aInv[s], theta[s], counts[s], totals[s])
    }

    function With(s: Strategy, arm: Arm): Tables {
      Tables(a[s := arm.a], b[s := arm.b], theta[s := arm.theta], aInv[s := arm.aInv], counts[s := arm.count],
             totals[s := arm.totalReward])
    }
  }

  /** Every stored matrix and vector is the one its strategy's history calls for. */
  ghost predicate Consistent(inv: Matrix -> Matrix, lambda: real, n: nat, strategies: seq<Strategy>, t: Tables,
                             history: map<Strategy, seq<Observation>>)
  {
    forall s | s in strategies :: t.Known(s) && s in history && After(inv, lambda, n, t.ArmOf(s), history[s])
  }

  lemma WithArm(t: Tables, s: Strategy, arm: Arm, r: Strategy)
    ensures t.With(s, arm).Known(s) && t.With(s, arm).ArmOf(s) == arm
    ensures r != s && t.Known(r) ==> t.With(s, arm).Known(r) && t.With(s, arm).ArmOf(r) == t.ArmOf(r)
  {
  }

  lemma {:induction false} ConsistentAfter(inv: Matrix -> Matrix, lambda: real, n: nat, strategies: seq<Strategy>,
                                           t: Tables, history: map<Strategy, seq<Observation>>, s: Strategy,
                                           o: Observation)
    requires Consistent(inv, lambda, n, strategies, t, history) && s in strategies && |o.x| == n
    ensures t.Known(s) && s in history && Shaped(t.ArmOf(s), n)
    ensures IsMatrix(inv(AddOuter(t.a[s], 1.0, o.x)), n)
    ensures Consistent(inv, lambda, n, strategies, t.With(s, Observe(inv, t.ArmOf(s), o)),
                       history[s := history[s] + [o]])
  {
    hide After, Observe, AddOuter;
    assert t.Known(s) && s in history && After(inv, lambda, n, t.ArmOf(s), history[s]);
    AfterOneMore(inv, lambda, n, t.ArmOf(s), history[s], o);
    forall r | r in strategies
      ensures var t' := t.With(s, Observe(inv, t.ArmOf(s), o));
              && t'.Known(r) && r in history[s := history[s] + [o]]
              && After(inv, lambda, n, t'.ArmOf(r), history[s := history[s] + [o]][r])
    {
      WithArm(t, s, Observe(inv, t.ArmOf(s), o), r);
    }
  }

  class LinUCBBandit {
    const strategies: seq<Strategy>
    const alpha: real
    const lambdaReg: real
    const contextDim: nat
    const inv: Matrix -> Matrix
    const sqrt: real -> real

    var A: map<Strategy, Matrix>
    var b: map<Strategy, Vector>
    var theta: map<Strategy, Vector>
    var AInv: map<Strategy, Matrix>
    var actionCounts: map<Strategy, nat>
    var totalRewards: map<Strategy, real>

    ghost var history: map<Strategy, seq<Observation>>

    function View(): Tables
      reads this
    {
      Tables(A, b, theta, AInv, actionCounts, totalRewards)
    }

    ghost predicate Valid()
      reads this
    {
      && strategies != [] && Inverter(inv) && lambdaReg > 0.0
      && Consistent(inv, lambdaReg, contextDim, strategies, View(), history)
    }

    constructor (chosen: seq<Strategy>, alpha: real, lambdaReg: real, contextDim: nat,
                 inv: Matrix -> Matrix, sqrt: real -> real)
      requires Inverter(inv) && lambdaReg > 0.0
      ensures Valid() && strategies == (if chosen == [] then ALL_STRATEGIES else chosen)
      ensures this.alpha == alpha && this.lambdaReg == lambdaReg && this.contextDim == contextDim
      ensures this.inv == inv && this.sqrt == sqrt
      ensures forall a | a in strategies :: history[a] == []
    {
      hide Inverter, After, ScaledIdentity, Zero;
      AfterNothing(inv, lambdaReg, contextDim);
      var keys := if chosen == [] then ALL_STRATEGIES else chosen;
      this.strategies, this.alpha, this.lambdaReg, this.contextDim := keys, alpha, lambdaReg, contextDim;
      this.inv, this.sqrt := inv, sqrt;
      A := map a | a in keys :: ScaledIdentity(contextDim, lambdaReg);
      b := map a | a in keys :: Zero(contextDim);
      theta := map a | a in keys :: Zero(contextDim);
      AInv := map a | a in keys :: ScaledIdentity(contextDim, 1.0 / lambdaReg);
      actionCounts := map a | a in keys :: 0;
      totalRewards := map a | a in keys :: 0.0;
      history := map a | a in keys :: [];
    }

    /** Observing a reward extends exactly the history of that one strategy. */
    method Update(action: Strategy, x: Vector, reward: real)
      requires Valid() && action in strategies && |x| == contextDim
      modifies this
      ensures Valid()
      ensures history == old(history)[action := old(history)[action] + [Observation(x, reward)]]
    {
      hide Times, Dot, Apply, AddOuter, Plus, Scale, Inverter, Consistent;
      ghost var o := Observation(x, reward);
      ConsistentAfter(inv, lambdaReg, contextDim, strategies, View(), history, action, o);
      A := A[action := AddOuter(A[action], 1.0, x)];
      b := b[action := Plus(b[action], Scale(reward, x))];
      AInv := AInv[action := inv(A[action])];
      theta := theta[action := Apply(AInv[action], b[action])];
      actionCounts := actionCounts[action := actionCounts[action] + 1];
      totalRewards := totalRewards[action := totalRewards[action] + reward];
      history := history[action := history[action] + [o]];
    }

    /** The upper confidence bound of the k-th strategy; noise breaks the symmetry of untried ones. */
    ghost function Score(k: nat, x: Vector, noise: seq<real>): real
      reads this
      requires Valid() && k < |strategies| == |noise| && |x| == contextDim
    {
      Bound(alpha, sqrt, View().ArmOf(strategies[k]), x, noise[k])
    }

    /** The chosen strategy has the highest bound, and the first such one wins. Clipping the
        width at zero before the square root never changes it. */
    method SelectAction(x: Vector, noise: seq<real>) returns (best: Strategy, at: nat)
      requires Valid() && |x| == contextDim && |noise| == |strategies|
      ensures at < |strategies| && best == strategies[at]
      ensures forall k | 0 <= k < |strategies| :: Score(k, x, noise) <= Score(at, x, noise)
      ensures forall k | 0 <= k < at :: Score(k, x, noise) < Score(at, x, noise)
    {
      hide Times, Dot, Apply, Inverter, IsMatrix, ArmAfter, Zero, Scale, ScaledIdentity;
      best, at := strategies[0], 0;
      var bestScore := 0.0;
      for i := 0 to |strategies|
        invariant i > 0 ==> at < i && best == strategies[at] && bestScore == Score(at, x, noise)
        invariant i > 0 ==> forall k | 0 <= k < i :: Score(k, x, noise) <= bestScore
        invariant i > 0 ==> forall k | 0 <= k < at :: Score(k, x, noise) < bestScore
      {
        var action := strategies[i];
        WidthSign(inv, lambdaReg, contextDim, history[action], x);
        var square := Dot(x, Apply(AInv[action], x));
        var score := Dot(x, theta[action]) + Times(alpha, sqrt(if square < 0.0 then 0.0 else square));
        if actionCounts[action] == 0 {
          score := score + noise[i];
        }
        assert score == Score(i, x, noise);
        if i == 0 || score > bestScore {
          bestScore, best, at := score, action, i;
        }
      }
    }

    method SaveState() returns (saved: SavedBandit)
      requires Valid()
      ensures SavedFrom(saved, inv, history)
      ensures saved.strategies == strategies && saved.alpha == alpha
      ensures saved.lambdaReg == lambdaReg && saved.contextDim == contextDim
    {
      saved := SavedBandit(strategies, alpha, lambdaReg, contextDim,
                           map a | a in strategies && View().Known(a) :: Save(View().ArmOf(a)));
    }

    /** Loading a saved bandit rebuilds every arm, inverse and theta included. */
    constructor Load(saved: SavedBandit, inv: Matrix -> Matrix, sqrt: real -> real,
                     ghost past: map<Strategy, seq<Observation>>)
      requires SavedFrom(saved, inv, past)
      ensures Valid() && history == past && this.inv == inv && this.sqrt == sqrt
      ensures strategies == saved.strategies && alpha == saved.alpha
      ensures lambdaReg == saved.lambdaReg && contextDim == saved.contextDim
    {
      hide Times, Dot, Apply, Plus, Scale, Inverter, IsMatrix, After, SavedFrom;
      SavedFromBasics(saved, inv, past);
      forall a | a in saved.strategies
        ensures a in saved.arms && a in past
        ensures IsMatrix(inv(saved.arms[a].a), |saved.arms[a].b|)
        ensures After(inv, saved.lambdaReg, saved.contextDim, Restore(inv, saved.arms[a]), past[a])
      {
        RestoredArm(saved, inv, past, a);
      }
      var keys, arms := saved.strategies, saved.arms;
      this.strategies, this.alpha := keys, saved.alpha;
      this.lambdaReg, this.contextDim := saved.lambdaReg, saved.contextDim;
      this.inv, this.sqrt := inv, sqrt;
      A := map a | a in keys :: arms[a].a;
      b := map a | a in keys :: arms[a].b;
      AInv := map a | a in keys :: inv(arms[a].a);
      theta := map a | a in keys :: Apply(inv(arms[a].a), arms[a].b);
      actionCounts := map a | a in keys :: arms[a].count;
      totalRewards := map a | a in keys :: arms[a].totalReward;
      history := past;
    }
  }
}
