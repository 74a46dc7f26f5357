/** Exact real vectors and square matrices of any dimension: just enough linear
    algebra to reason about an inverse that changes one observation at a time. */
module LinearAlgebra {

  type Vector = seq<real>
  type Matrix = seq<Vector>

  // A name for the product, so that lemmas about vectors need not look inside it.
  function Times(a: real, b: real): real { a * b }

  predicate IsMatrix(m: Matrix, n: nat) {
    |m| == n && forall i | 0 <= i < n :: |m[i]| == n
  }

  function Dot(u: Vector, v: Vector): real
    requires |u| == |v|
  {
    if u == [] then 0.0 else Times(u[0], v[0]) + Dot(u[1..], v[1..])
  }

  function Scale(c: real, v: Vector): (r: Vector)
    ensures |r| == |v|
  {
    seq(|v|, i requires 0 <= i < |v| => Times(c, v[i]))
  }

  function Plus(u: Vector, v: Vector): (r: Vector)
    requires |u| == |v|
    ensures |r| == |u|
  {
    seq(|u|, i requires 0 <= i < |u| => u[i] + v[i])
  }

  function Zero(n: nat): (r: Vector)
    ensures |r| == n
  {
    seq(n, i => 0.0)
  }

  function Unit(n: nat, j: nat): (r: Vector)
    ensures |r| == n
  {
    seq(n, i => if i == j then 1.0 else 0.0)
  }

  /** The matrix-vector product. */
  function Apply(m: Matrix, v: Vector): (r: Vector)
    requires IsMatrix(m, |v|)
    ensures |r| == |v|
  {
    seq(|v|, i requires 0 <= i < |v| => Dot(m[i], v))
  }

  function ScaledIdentity(n: nat, c: real): (m: Matrix)
    ensures IsMatrix(m, n)
  {
    seq(n, i requires 0 <= i < n => Scale(c, Unit(n, i)))
  }

  /** The rank-one update m + c * (u outer u). */
  function AddOuter(m: Matrix, c: real, u: Vector): (r: Matrix)
    requires IsMatrix(m, |u|)
    ensures IsMatrix(r, |u|)
    ensures forall i | 0 <= i < |u| :: r[i] == Plus(m[i], Scale(Times(c, u[i]), u))
  {
    var r: Matrix := seq(|u|, i requires 0 <= i < |u| => Plus(m[i], Scale(Times(c, u[i]), u)));
    assert forall i | 0 <= i < |u| :: r[i] == Plus(m[i], Scale(Times(c, u[i]), u));
    r
  }

  /** b undoes a and a undoes b on every vector. */
  ghost predicate IsInverse(a: Matrix, b: Matrix, n: nat) {
    && IsMatrix(a, n)
    && IsMatrix(b, n)
    && (forall v: Vector {:trigger Apply(a, Apply(b, v))} | |v| == n :: Apply(a, Apply(b, v)) == v)
    && (forall v: Vector {:trigger Apply(b, Apply(a, v))} | |v| == n :: Apply(b, Apply(a, v)) == v)
  }

  ghost predicate Symmetric(m: Matrix, n: nat) {
    && IsMatrix(m, n)
    && forall u: Vector, v: Vector {:trigger Dot(u, Apply(m, v))} | |u| == n && |v| == n ::
         Dot(u, Apply(m, v)) == Dot(Apply(m, u), v)
  }

  // ---- the dot product is symmetric and bilinear

  lemma TimesLaws(a: real, b: real, c: real)
    ensures Times(a, b) == Times(b, a)
    ensures Times(a, Times(b, c)) == Times(Times(a, b), c)
    ensures Times(a, b + c) == Times(a, b) + Times(a, c)
    ensures Times(-a, b) == -Times(a, b)
    ensures Times(1.0, a) == a && Times(0.0, a) == 0.0
    ensures Times(a, a) >= 0.0
  {
    assert a * (b * c) == (a * b) * c;
    assert a * (b + c) == a * b + a * c;
    assert a * a >= 0.0;
  }

  lemma {:induction false} DotSymmetric(u: Vector, v: Vector)
    requires |u| == |v|
    ensures Dot(u, v) == Dot(v, u)
  {
    hide Times;
    if u != [] {
      DotSymmetric(u[1..], v[1..]);
      TimesLaws(u[0], v[0], 0.0);
    }
  }

  /** Dot is linear in its second argument. */
  lemma {:induction false} DotLinear(u: Vector, v: Vector, c: real, w: Vector)
    requires |u| == |v| == |w|
    ensures Dot(u, Plus(v, Scale(c, w))) == Dot(u, v) + Times(c, Dot(u, w))
  {
    hide Times;
    if u == [] {
      TimesLaws(c, 0.0, 0.0);
      TimesLaws(0.0, c, 0.0);
    } else {
      assert Plus(v, Scale(c, w))[1..] == Plus(v[1..], Scale(c, w[1..]));
      DotLinear(u[1..], v[1..], c, w[1..]);
      TimesLaws(u[0], v[0], Times(c, w[0]));
      TimesLaws(u[0], c, w[0]);
      TimesLaws(c, u[0], w[0]);
      TimesLaws(c, Times(u[0], w[0]), Dot(u[1..], w[1..]));
    }
  }

  lemma {:induction false} DotLinearLeft(u: Vector, v: Vector, c: real, w: Vector)
    requires |u| == |v| == |w|
    ensures Dot(Plus(v, Scale(c, w)), u) == Dot(v, u) + Times(c, Dot(w, u))
  {
    hide *;
    DotSymmetric(Plus(v, Scale(c, w)), u);
    DotLinear(u, v, c, w);
    DotSymmetric(u, v);
    DotSymmetric(u, w);
  }

  lemma {:induction false} DotSelfNonNegative(v: Vector)
    ensures Dot(v, v) >= 0.0
  {
    hide Times;
    if v != [] {
      DotSelfNonNegative(v[1..]);
      TimesLaws(v[0], v[0], v[0]);
    }
  }

  lemma {:induction false} DotZero(v: Vector, n: nat)
    requires |v| == n
    ensures Dot(v, Zero(n)) == 0.0
  {
    if n > 0 {
      assert Zero(n)[1..] == Zero(n - 1);
      DotZero(v[1..], n - 1);
    }
  }

  lemma {:induction false} DotUnit(v: Vector, n: nat, j: nat)
    requires |v| == n
    ensures Dot(v, Unit(n, j)) == if j < n then v[j] else 0.0
  {
    if n > 0 {
      if j == 0 {
        assert Unit(n, 0)[1..] == Zero(n - 1);
        DotZero(v[1..], n - 1);
      } else {
        assert Unit(n, j)[1..] == Unit(n - 1, j - 1);
        DotUnit(v[1..], n - 1, j - 1);
      }
    }
  }

  // ---- matrices act linearly

  lemma {:induction false} ApplyLinear(m: Matrix, v: Vector, c: real, w: Vector)
    requires IsMatrix(m, |v|) && |v| == |w|
    ensures Apply(m, Plus(v, Scale(c, w))) == Plus(Apply(m, v), Scale(c, Apply(m, w)))
  {
    hide Times, Dot;
    forall i | 0 <= i < |m|
      ensures Apply(m, Plus(v, Scale(c, w)))[i] == Plus(Apply(m, v), Scale(c, Apply(m, w)))[i]
    {
      DotLinear(m[i], v, c, w);
    }
  }

  lemma {:induction false} ApplyScaledIdentity(n: nat, c: real, v: Vector)
    requires |v| == n
    ensures Apply(ScaledIdentity(n, c), v) == Scale(c, v)
  {
    forall i | 0 <= i < n
      ensures Apply(ScaledIdentity(n, c), v)[i] == Scale(c, v)[i]
    {
      hide Times, Dot, Unit;
      assert Scale(c, Unit(n, i)) == Plus(Zero(n), Scale(c, Unit(n, i)));
      DotLinearLeft(v, Zero(n), c, Unit(n, i));
      DotSymmetric(Zero(n), v);
      DotZero(v, n);
      DotSymmetric(Unit(n, i), v);
      DotUnit(v, n, i);
    }
  }

  lemma {:induction false} ApplyAddOuter(m: Matrix, c: real, u: Vector, v: Vector)
    requires IsMatrix(m, |u|) && |u| == |v|
    ensures Apply(AddOuter(m, c, u), v) == Plus(Apply(m, v), Scale(Times(c, Dot(u, v)), u))
  {
    hide Times, Dot;
    forall i | 0 <= i < |u|
      ensures Apply(AddOuter(m, c, u), v)[i] == Plus(Apply(m, v), Scale(Times(c, Dot(u, v)), u))[i]
    {
      DotLinearLeft(v, m[i], Times(c, u[i]), u);
      TimesLaws(c, u[i], Dot(u, v));
      TimesLaws(u[i], Dot(u, v), 0.0);
      TimesLaws(c, Dot(u, v), u[i]);
    }
  }

  /** Two matrices that act alike are equal. */
  lemma {:induction false} SameActionSameMatrix(a: Matrix, b: Matrix, n: nat)
    requires IsMatrix(a, n) && IsMatrix(b, n)
    requires forall v: Vector | |v| == n :: Apply(a, v) == Apply(b, v)
    ensures a == b
  {
    hide Dot;
    forall i | 0 <= i < n
      ensures a[i] == b[i]
    {
      forall j | 0 <= j < n
        ensures a[i][j] == b[i][j]
      {
        DotUnit(a[i], n, j);
        DotUnit(b[i], n, j);
        assert Apply(a, Unit(n, j))[i] == Apply(b, Unit(n, j))[i];
      }
    }
  }

  // ---- inverses

  lemma {:induction false} InverseUnique(a: Matrix, b: Matrix, c: Matrix, n: nat)
    requires IsInverse(a, b, n) && IsInverse(a, c, n)
    ensures b == c
  {
    hide Apply;
    forall v: Vector | |v| == n
      ensures Apply(b, v) == Apply(c, v)
    {
      assert Apply(a, Apply(c, v)) == v;
      assert Apply(b, Apply(a, Apply(c, v))) == Apply(c, v);
    }
    SameActionSameMatrix(b, c, n);
  }

  lemma {:induction false} InverseSymmetric(a: Matrix, b: Matrix, n: nat)
    requires Symmetric(a, n) && IsInverse(a, b, n)
    ensures Symmetric(b, n)
  {
    hide Apply, Dot;
    forall u: Vector, v: Vector | |u| == n && |v| == n
      ensures Dot(u, Apply(b, v)) == Dot(Apply(b, u), v)
    {
      assert Apply(a, Apply(b, u)) == u && Apply(a, Apply(b, v)) == v;
      assert Dot(Apply(b, u), Apply(a, Apply(b, v))) == Dot(Apply(a, Apply(b, u)), Apply(b, v));
    }
  }

  lemma {:induction false} AddOuterSymmetric(m: Matrix, c: real, x: Vector)
    requires Symmetric(m, |x|)
    ensures Symmetric(AddOuter(m, c, x), |x|)
  {
    hide Times, Dot, Apply, Plus, Scale;
    var r := AddOuter(m, c, x);
    forall u: Vector, v: Vector | |u| == |x| && |v| == |x|
      ensures Dot(u, Apply(r, v)) == Dot(Apply(r, u), v)
    {
      ApplyAddOuter(m, c, x, u);
      ApplyAddOuter(m, c, x, v);
      var p, q := Dot(x, u), Dot(x, v);
      DotLinear(u, Apply(m, v), Times(c, q), x);
      DotLinearLeft(v, Apply(m, u), Times(c, p), x);
      DotSymmetric(u, x);
      TimesLaws(c, q, p);
      TimesLaws(c, p, q);
      TimesLaws(p, q, 0.0);
      assert Times(Times(c, q), p) == Times(Times(c, p), q);
    }
  }

  lemma {:induction false} ScaledIdentitySymmetric(n: nat, c: real)
    ensures Symmetric(ScaledIdentity(n, c), n)
  {
    hide Times, Dot, Apply, Plus, Scale, Zero;
    var m := ScaledIdentity(n, c);
    forall u: Vector, v: Vector | |u| == n && |v| == n
      ensures Dot(u, Apply(m, v)) == Dot(Apply(m, u), v)
    {
      ApplyScaledIdentity(n, c, u);
      ApplyScaledIdentity(n, c, v);
      DotScale(u, c, v);
      DotScale(v, c, u);
      DotSymmetric(u, v);
      DotSymmetric(v, Scale(c, u));
    }
  }

  lemma {:induction false} DotScale(u: Vector, c: real, v: Vector)
    requires |u| == |v|
    ensures Dot(u, Scale(c, v)) == Times(c, Dot(u, v))
  {
    hide Times, Dot;
    assert Plus(Zero(|u|), Scale(c, v)) == Scale(c, v);
    DotLinear(u, Zero(|u|), c, v);
    DotZero(u, |u|);
  }

  lemma {:induction false} ScaledIdentityInverse(n: nat, c: real, d: real)
    requires Times(c, d) == 1.0
    ensures IsInverse(ScaledIdentity(n, c), ScaledIdentity(n, d), n)
  {
    hide Times, Dot, Apply;
    forall v: Vector | |v| == n
      ensures Apply(ScaledIdentity(n, c), Apply(ScaledIdentity(n, d), v)) == v
      ensures Apply(ScaledIdentity(n, d), Apply(ScaledIdentity(n, c), v)) == v
    {
      ApplyScaledIdentity(n, d, v);
      ApplyScaledIdentity(n, c, v);
      ApplyScaledIdentity(n, c, Scale(d, v));
      ApplyScaledIdentity(n, d, Scale(c, v));
      forall i | 0 <= i < n
        ensures Times(c, Times(d, v[i])) == v[i]
        ensures Times(d, Times(c, v[i])) == v[i]
      {
        TimesLaws(c, d, v[i]);
        TimesLaws(d, c, v[i]);
        TimesLaws(v[i], 1.0, 0.0);
        TimesLaws(1.0, v[i], 0.0);
        TimesLaws(v[i], 0.0, 0.0);
      }
    }
  }

  lemma {:induction false} SumCancels(v: Vector, p: real, q: real, x: Vector)
    requires |v| == |x| && p + q == 0.0
    ensures Plus(Plus(v, Scale(p, x)), Scale(q, x)) == v
  {
    hide Times;
    forall i | 0 <= i < |v|
      ensures Plus(Plus(v, Scale(p, x)), Scale(q, x))[i] == v[i]
    {
      TimesLaws(p, x[i], 0.0);
    }
  }

  /** The Sherman-Morrison formula: the inverse of a rank-one update exists, and is this one. */
  lemma {:induction false} RankOneInverse(a: Matrix, b: Matrix, x: Vector, c: real)
    requires IsInverse(a, b, |x|) && Symmetric(b, |x|)
    requires Times(c, 1.0 + Dot(x, Apply(b, x))) == 1.0
    ensures IsInverse(AddOuter(a, 1.0, x), AddOuter(b, -c, Apply(b, x)), |x|)
  {
    hide IsInverse, Symmetric, Times, Dot, Apply, AddOuter;
    InverseAt(a, b, |x|, x);
    var a', b' := AddOuter(a, 1.0, x), AddOuter(b, -c, Apply(b, x));
    forall v: Vector | |v| == |x|
      ensures Apply(a', Apply(b', v)) == v && Apply(b', Apply(a', v)) == v
    {
      InverseAt(a, b, |x|, v);
      SymmetricAt(b, |x|, x, v);
      RankOneRight(a, b, x, c, v);
      SymmetricAt(b, |x|, x, Apply(a, v));
      RankOneLeft(a, b, x, c, v);
    }
    InverseIntro(a', b', |x|);
  }

  lemma {:induction false} InverseIntro(a: Matrix, b: Matrix, n: nat)
    requires IsMatrix(a, n) && IsMatrix(b, n)
    requires forall v: Vector | |v| == n :: Apply(a, Apply(b, v)) == v && Apply(b, Apply(a, v)) == v
    ensures IsInverse(a, b, n)
  {
  }

  lemma {:induction false} InverseAt(a: Matrix, b: Matrix, n: nat, v: Vector)
    requires IsInverse(a, b, n) && |v| == n
    ensures IsMatrix(a, n) && IsMatrix(b, n)
    ensures Apply(a, Apply(b, v)) == v && Apply(b, Apply(a, v)) == v
  {
  }

  lemma {:induction false} SymmetricAt(m: Matrix, n: nat, u: Vector, v: Vector)
    requires Symmetric(m, n) && |u| == |v| == n
    ensures IsMatrix(m, n)
    ensures Dot(u, Apply(m, v)) == Dot(Apply(m, u), v)
  {
  }

  lemma {:induction false} RankOneRight(a: Matrix, b: Matrix, x: Vector, c: real, v: Vector)
    requires IsMatrix(a, |x|) && IsMatrix(b, |x|) && |v| == |x|
    requires Apply(a, Apply(b, x)) == x && Apply(a, Apply(b, v)) == v
    requires Dot(x, Apply(b, v)) == Dot(Apply(b, x), v)
    requires Times(c, 1.0 + Dot(x, Apply(b, x))) == 1.0
    ensures Apply(AddOuter(a, 1.0, x), Apply(AddOuter(b, -c, Apply(b, x)), v)) == v
  {
    hide Times, Dot, Apply, Plus, Scale, AddOuter;
    var bx, bv := Apply(b, x), Apply(b, v);
    var s, t := Dot(x, bx), Dot(bx, v);
    var p := Times(-c, t);
    var w := Plus(bv, Scale(p, bx));
    ApplyAddOuter(b, -c, bx, v);
    ApplyAddOuter(a, 1.0, x, w);
    ApplyLinear(a, bv, p, bx);
    DotLinear(x, bv, p, bx);
    CancelCoefficient(c, s, t);
    TimesLaws(Dot(x, w), 0.0, 0.0);
    SumCancels(v, p, Dot(x, w), x);
  }

  lemma {:induction false} RankOneLeft(a: Matrix, b: Matrix, x: Vector, c: real, v: Vector)
    requires IsMatrix(a, |x|) && IsMatrix(b, |x|) && |v| == |x|
    requires Apply(b, Apply(a, v)) == v
    requires Dot(x, Apply(b, Apply(a, v))) == Dot(Apply(b, x), Apply(a, v))
    requires Times(c, 1.0 + Dot(x, Apply(b, x))) == 1.0
    ensures Apply(AddOuter(b, -c, Apply(b, x)), Apply(AddOuter(a, 1.0, x), v)) == v
  {
    hide Times, Dot, Apply, Plus, Scale, AddOuter;
    var bx, av := Apply(b, x), Apply(a, v);
    var s, t := Dot(x, bx), Dot(x, v);
    var w := Plus(av, Scale(t, x));
    TimesLaws(t, 0.0, 0.0);
    ApplyAddOuter(a, 1.0, x, v);
    ApplyAddOuter(b, -c, bx, w);
    ApplyLinear(b, av, t, x);
    DotLinear(bx, av, t, x);
    DotSymmetric(bx, x);
    CancelCoefficient(c, s, t);
    SumCancels(v, t, Times(-c, Dot(bx, w)), bx);
  }

  lemma CancelCoefficient(c: real, s: real, t: real)
    requires Times(c, 1.0 + s) == 1.0
    ensures Times(-c, t) + (t + Times(Times(-c, t), s)) == 0.0
    ensures t + Times(-c, t + Times(t, s)) == 0.0
  {
    assert t * (c * (1.0 + s)) == t;
    assert -c * t + t + -c * t * s == t - t * (c * (1.0 + s));
  }
}
