/**
 * The conditioning rules of the parallel and orientation constraints, over
 * components that are already evaluated at the current parameter values:
 * which two components of a cross product `_vectorsParallel` keeps, the
 * operand swap of `_SameOrientation` and `_Parallel`, the choice between the
 * two axis dot products, and the differences of `_vectorsEqual`.
 */
module Conditioning {

  import opened Wrappers
  import opened Values

  datatype Vec3<T> = Vec3(x: T, y: T, z: T)

  type Triple = Vec3<real>

  datatype Axis = X | Y | Z

  function Get<T>(v: Vec3<T>, i: Axis): T
  {
    match i
    case X => v.x
    case Y => v.y
    case Z => v.z
  }

  function Abs(r: real): real
  {
    if r < 0.0 then -r else r
  }

  function Cross(a: Triple, b: Triple): Triple
  {
    Vec3(a.y * b.z - a.z * b.y, a.z * b.x - a.x * b.z, a.x * b.y - a.y * b.x)
  }

  function Dot(a: Triple, b: Triple): real
  {
    a.x * b.x + a.y * b.y + a.z * b.z
  }

  const Zero: Triple := Vec3(0.0, 0.0, 0.0)

  /**
   * The axis along which `a` is longest, as `_vectorsParallel` decides it:
   * x only when strictly longer than both others, then y when strictly
   * longer than z, else z; ties fall to the later axis.
   */
  function Dominant(a: Triple): (i: Axis)
    ensures forall j: Axis :: Abs(Get(a, j)) <= Abs(Get(a, i))
    ensures i == X <==> Abs(a.x) > Abs(a.y) && Abs(a.x) > Abs(a.z)
    ensures i == Y <==> Abs(a.x) <= Abs(a.y) && Abs(a.y) > Abs(a.z)
  {
    if Abs(a.x) > Abs(a.y) && Abs(a.x) > Abs(a.z) then X
    else if Abs(a.y) > Abs(a.z) then Y
    else Z
  }

  /** The two other axes, in the cyclic order the source lists them. */
  function Others(i: Axis): (r: (Axis, Axis))
    ensures r.0 != i && r.1 != i && r.0 != r.1
  {
    match i
    case X => (Y, Z)
    case Y => (Z, X)
    case Z => (X, Y)
  }

  /** `_vectorsParallel`'s choice: the components of `r` on the two axes other than the dominant axis of `a`. */
  function SelectParallel<T>(r: Vec3<T>, a: Triple): (s: seq<T>)
    ensures |s| == 2
    ensures s == [Get(r, Others(Dominant(a)).0), Get(r, Others(Dominant(a)).1)]
  {
    var (j, k) := Others(Dominant(a));
    [Get(r, j), Get(r, k)]
  }

  /** The dominant component of a non-zero vector is non-zero. */
  lemma DominantNonZero(a: Triple)
    requires a != Zero
    ensures Get(a, Dominant(a)) != 0.0
  {
  }

  /** A vector is orthogonal to its cross product with any other. */
  lemma CrossOrthogonal(a: Triple, b: Triple)
    ensures Dot(a, Cross(a, b)) == 0.0
  {
    var r := Cross(a, b);
    calc {
      Dot(a, r);
      a.x * (a.y * b.z - a.z * b.y) + a.y * (a.z * b.x - a.x * b.z) + a.z * (a.x * b.y - a.y * b.x);
      { assert a.x * (a.y * b.z) == a.y * (a.x * b.z);
        assert a.x * (a.z * b.y) == a.z * (a.x * b.y);
        assert a.y * (a.z * b.x) == a.z * (a.y * b.x); }
      0.0;
    }
  }

  /**
   * The point of the choice: the two kept components of `a × b` vanish
   * exactly when the whole cross product does, that is when `b` is parallel
   * to `a` (for a zero `a` both sides hold).
   */
  lemma ParallelSelectionSound(a: Triple, b: Triple)
    ensures var s := SelectParallel(Cross(a, b), a);
      s[0] == 0.0 && s[1] == 0.0 <==> Cross(a, b) == Zero
  {
    var r := Cross(a, b);
    var i := Dominant(a);
    var (j, k) := Others(i);
    CrossOrthogonal(a, b);
    if a == Zero {
      assert r == Zero;
    } else if Get(r, j) == 0.0 && Get(r, k) == 0.0 {
      DominantNonZero(a);
      assert Get(a, i) * Get(r, i) == 0.0 by {
        match i
        case X => assert Dot(a, r) == a.x * r.x + a.y * r.y + a.z * r.z;
        case Y => assert Dot(a, r) == a.x * r.x + a.y * r.y + a.z * r.z;
        case Z => assert Dot(a, r) == a.x * r.x + a.y * r.y + a.z * r.z;
      }
      assert Get(r, i) == 0.0;
      assert r.x == 0.0 && r.y == 0.0 && r.z == 0.0 by {
        match i
        case X =>
        case Y =>
        case Z =>
      }
    }
  }

  // ---------------------------------------------------------------------------
  // Residual components as the solve loop sees them

  /**
   * A residual component: its value at the current parameter values, and
   * whether its expression still mentions a free parameter symbol. A
   * component built from two operands is taken to be free when either
   * operand's group is the solving group, that is, an operand's parameters
   * are assumed to belong to the operand's own group.
   */
  datatype Residual = Residual(value: real, free: bool)

  /**
   * `evalf(subs=args)` with `args` the table of every free parameter of the
   * group being solved: the value is kept and no free symbol is left.
   */
  function Evalf(c: Residual): (r: Residual)
    ensures r.value == c.value && !r.free
  {
    Residual(c.value, false)
  }

  /** The solve loop's filter: a component without free symbols is skipped. */
  function Kept(cs: seq<Residual>): (r: seq<Residual>)
    ensures |r| <= |cs|
    ensures forall c :: c in r <==> c in cs && c.free
  {
    if cs == [] then []
    else if cs[0].free then [cs[0]] + Kept(cs[1..])
    else Kept(cs[1..])
  }

  /** `_vectorsParallel` as written: the kept components of `r` are evaluated before they are returned. */
  function VectorsParallelAsWritten(r: Vec3<Residual>, a: Triple): (s: seq<Residual>)
    ensures |s| == 2
    ensures forall n :: 0 <= n < 2 ==> s[n] == Evalf(SelectParallel(r, a)[n])
  {
    var sel := SelectParallel(r, a);
    [Evalf(sel[0]), Evalf(sel[1])]
  }

  /** As written, the solve loop never sees a residual of `_vectorsParallel`. */
  lemma VectorsParallelDropped(r: Vec3<Residual>, a: Triple)
    ensures Kept(VectorsParallelAsWritten(r, a)) == []
  {
    var s := VectorsParallelAsWritten(r, a);
    assert s[1..][1..] == [];
  }

  /**
   * `_vectorsParallel` as intended: the magnitudes of `a` evaluated only to
   * make the choice, and the chosen components returned symbolic.
   */
  function VectorsParallel(r: Vec3<Residual>, a: Triple): (s: seq<Residual>)
    ensures |s| == 2
  {
    SelectParallel(r, a)
  }

  /** Corrected, components that mention a free parameter reach the solver. */
  lemma VectorsParallelKept(r: Vec3<Residual>, a: Triple)
    requires r.x.free && r.y.free && r.z.free
    ensures Kept(VectorsParallel(r, a)) == VectorsParallel(r, a)
  {
    var s := VectorsParallel(r, a);
    assert s[0].free && s[1].free by {
      var (j, k) := Others(Dominant(a));
      match j
      case X => case Y => case Z =>
    }
    assert s[1..][1..] == [];
  }

  // ---------------------------------------------------------------------------
  // The two constraints

  /** An operand (a normal or a line) with its group and its evaluated vector and axes. */
  datatype Operand = Operand(group: Value, vector: Triple, i: Triple, j: Triple)

  /** The operand's parameters are the free ones of the pass when its group is the solving group. */
  predicate InGroup(o: Operand, solving: Option<Value>)
  {
    solving == Some(o.group)
  }

  /**
   * The swap of `_SameOrientation` and `_Parallel`: the first operand goes
   * second when it belongs to the solving group, so the choice is made on
   * a fixed vector whenever one of the two is fixed.
   */
  function OrderOperands(o1: Operand, o2: Operand, solving: Option<Value>): (r: (Operand, Operand))
    ensures r == (o1, o2) || r == (o2, o1)
    ensures InGroup(r.0, solving) ==> InGroup(o1, solving) && InGroup(o2, solving)
    ensures !InGroup(o1, solving) ==> r == (o1, o2)
    ensures InGroup(o1, solving) ==> r == (o2, o1)
  {
    if InGroup(o1, solving) then (o2, o1) else (o1, o2)
  }

  /**
   * The last equation of `_SameOrientation`: `d1` when it is strictly
   * smaller in magnitude, else `d2`.
   */
  function PickSmaller(d1: real, d2: real): (r: real)
    ensures r == d1 || r == d2
    ensures Abs(r) <= Abs(d1) && Abs(r) <= Abs(d2)
    ensures Abs(d1) == Abs(d2) ==> r == d2
  {
    if Abs(d1) < Abs(d2) then d1 else d2
  }

  /** The cross product of the two operands' vectors, as residual components. */
  function CrossResidual(n1: Operand, n2: Operand, free: bool): Vec3<Residual>
  {
    var c := Cross(n1.vector, n2.vector);
    Vec3(Residual(c.x, free), Residual(c.y, free), Residual(c.z, free))
  }

  /** `_SameOrientation.getEqWithParams`, with the corrected `_vectorsParallel`. */
  function SameOrientation(o1: Operand, o2: Operand, solving: Option<Value>): (eqs: seq<Residual>)
    ensures |eqs| == 3
    ensures var (n1, n2) := OrderOperands(o1, o2, solving);
      && eqs[..2] == VectorsParallel(CrossResidual(n1, n2, InGroup(o1, solving) || InGroup(o2, solving)), n1.vector)
      && eqs[2].value == PickSmaller(Dot(n1.i, n2.j), Dot(n1.i, n2.i))
  {
    var (n1, n2) := OrderOperands(o1, o2, solving);
    var free := InGroup(o1, solving) || InGroup(o2, solving);
    var d1 := Dot(n1.i, n2.j);
    var d2 := Dot(n1.i, n2.i);
    VectorsParallel(CrossResidual(n1, n2, free), n1.vector) + [Residual(PickSmaller(d1, d2), free)]
  }

  /** Whichever operand leads, the first two equations vanish exactly when the normals are parallel. */
  lemma SameOrientationParallel(o1: Operand, o2: Operand, solving: Option<Value>)
    ensures var eqs := SameOrientation(o1, o2, solving);
      eqs[0].value == 0.0 && eqs[1].value == 0.0 <==> Cross(o1.vector, o2.vector) == Zero
  {
    var (n1, n2) := OrderOperands(o1, o2, solving);
    ParallelSelectionSound(n1.vector, n2.vector);
    CrossAntisymmetric(o1.vector, o2.vector);
  }

  lemma CrossAntisymmetric(a: Triple, b: Triple)
    ensures Cross(a, b) == Zero <==> Cross(b, a) == Zero
  {
    assert Cross(b, a) == Vec3(-Cross(a, b).x, -Cross(a, b).y, -Cross(a, b).z);
  }

  /**
   * `_Parallel.getEqWithParams`: without a workplane, the two chosen cross
   * product components; with one, the component of the cross product along
   * the workplane normal.
   */
  function Parallel(l1: Operand, l2: Operand, solving: Option<Value>, wrkpln: Option<Triple>): (eqs: seq<Residual>)
    ensures wrkpln.None? ==> |eqs| == 2
    ensures wrkpln.Some? ==> |eqs| == 1
    ensures var (a, b) := OrderOperands(l1, l2, solving);
      var free := InGroup(l1, solving) || InGroup(l2, solving);
      && (wrkpln.None? ==> eqs == VectorsParallel(CrossResidual(a, b, free), a.vector))
      && (wrkpln.Some? ==> eqs[0] == Residual(Dot(Cross(a.vector, b.vector), wrkpln.value), free))
  {
    var (a, b) := OrderOperands(l1, l2, solving);
    var free := InGroup(l1, solving) || InGroup(l2, solving);
    if wrkpln.None? then VectorsParallel(CrossResidual(a, b, free), a.vector)
    else [Residual(Dot(Cross(a.vector, b.vector), wrkpln.value), free)]
  }

  /** Without a workplane, whichever line leads, both equations vanish exactly when the lines are parallel. */
  lemma ParallelNoPlaneSound(l1: Operand, l2: Operand, solving: Option<Value>)
    ensures var eqs := Parallel(l1, l2, solving, None);
      eqs[0].value == 0.0 && eqs[1].value == 0.0 <==> Cross(l1.vector, l2.vector) == Zero
  {
    var (a, b) := OrderOperands(l1, l2, solving);
    ParallelSelectionSound(a.vector, b.vector);
    CrossAntisymmetric(l1.vector, l2.vector);
  }

  /** The swap only flips the sign of the workplane equation, so it vanishes for the same lines either way. */
  lemma ParallelWorkplaneSwap(l1: Operand, l2: Operand, solving: Option<Value>, n: Triple)
    ensures Parallel(l1, l2, solving, Some(n))[0].value == Parallel(l1, l2, None, Some(n))[0].value ||
            Parallel(l1, l2, solving, Some(n))[0].value == -Parallel(l1, l2, None, Some(n))[0].value
  {
    var a, b := l1.vector, l2.vector;
    assert Dot(Cross(b, a), n) == -Dot(Cross(a, b), n);
  }

  /** `_vectorsEqual`: the componentwise differences, on x and y only when projected. */
  function VectorsEqual(projected: bool, v1: Triple, v2: Triple): (r: seq<real>)
    ensures |r| == if projected then 2 else 3
    ensures forall n :: 0 <= n < |r| ==> r[n] == Get(v1, [X, Y, Z][n]) - Get(v2, [X, Y, Z][n])
  {
    if projected then [v1.x - v2.x, v1.y - v2.y]
    else [v1.x - v2.x, v1.y - v2.y, v1.z - v2.z]
  }

  /** The differences all vanish exactly when the vectors agree, on x and y only when projected. */
  lemma VectorsEqualZero(projected: bool, v1: Triple, v2: Triple)
    ensures (forall n :: 0 <= n < |VectorsEqual(projected, v1, v2)| ==> VectorsEqual(projected, v1, v2)[n] == 0.0)
        <==> if projected then v1.x == v2.x && v1.y == v2.y else v1 == v2
  {
    var r := VectorsEqual(projected, v1, v2);
    if forall n :: 0 <= n < |r| ==> r[n] == 0.0 {
      assert r[0] == 0.0 && r[1] == 0.0;
      if !projected {
        assert r[2] == 0.0;
      }
    }
  }
}
