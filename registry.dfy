/**
 * A few of the factory classes the metaclass registers, as explicit specs
 * with their inherited attributes spelled out, and what binding does on
 * concrete calls of them.
 */
module Registry {

  import opened Wrappers
  import opened Values
  import opened Binding

  /** The conditions of `WellFormed` on the lists of a spec without options. */
  predicate FieldsOk(args: seq<string>, vargs: seq<string>)
  {
    && Distinct(args) && (forall f :: f in args ==> f !in BaseAttributes)
    && Distinct(vargs) && (forall k :: k in vargs ==> k in args)
  }

  function Entity(name: string, args: seq<string>, vargs: seq<string>): (s: Spec)
    requires FieldsOk(args, vargs)
    ensures WellFormed(s) && s.kind == EntityKind && Fields(s) == args
  {
    var s := Spec(name, EntityKind, args, [], vargs);
    assert Fields(s) == args;
    s
  }

  /** A `_Constraint` subclass that does not take a workplane. */
  function Plain(name: string, args: seq<string>): (s: Spec)
    requires FieldsOk(args, [])
    ensures WellFormed(s) && s.kind == ConstraintKind && Fields(s) == args
  {
    var s := Spec(name, ConstraintKind, args, [], []);
    assert Fields(s) == args;
    s
  }

  /** A `_ProjectingConstraint` subclass: it inherits the one option `wrkpln`, default 0. */
  function Projecting(name: string, args: seq<string>): (s: Spec)
    requires FieldsOk(args + ["wrkpln"], [])
    ensures WellFormed(s) && s.kind == ConstraintKind && Fields(s) == args + ["wrkpln"]
    ensures s.opts == [Opt.Plain("wrkpln")] && Arity(s) == |args| + 1
  {
    var s := Spec(name, ConstraintKind, args, [Opt.Plain("wrkpln")], []);
    assert Fields(s) == args + ["wrkpln"];
    s
  }

  const Point2dV: Spec := Entity("_Point2dV", ["wrkpln", "u", "v"], ["u", "v"])
  const SameOrientation: Spec := Plain("_SameOrientation", ["n1", "n2"])
  const PointsDistance: Spec := Projecting("_PointsDistance", ["d", "p1", "p2"])
  const Parallel: Spec := Projecting("_Parallel", ["l1", "l2"])

  /** `addSameOrientation(n1, n2, group=g)`: the keyword group is taken and both normals are bound. */
  lemma SameOrientationKeywordGroup(n1: Value, n2: Value, g: Value, handle: Value)
    requires Truthy(g)
    ensures Bind(SameOrientation, [n1, n2], map["group" := g], handle)
            == Success(Bound(g, map["n1" := n1, "n2" := n2]))
  {
    assert [n1, n2][..2] == [n1, n2] && [n1, n2][..1] == [n1];
    assert Positional(Fields(SameOrientation), [n1]) == map["n1" := n1];
    assert map["group" := g] - {"group"} == map[];
  }

  /** `addParallel(l1, l2, wrkpln=w)`: the keyword fills the workplane option, and the group is the handle. */
  lemma ParallelWorkplaneKeyword(l1: Value, l2: Value, w: Value, handle: Value)
    requires Truthy(handle)
    ensures Bind(Parallel, [l1, l2], map["wrkpln" := w], handle)
            == Success(Bound(handle, map["l1" := l1, "l2" := l2, "wrkpln" := w]))
  {
    assert [l1, l2][..2] == [l1, l2] && [l1, l2][..1] == [l1];
    assert Positional(Fields(Parallel), [l1]) == map["l1" := l1];
    assert map["wrkpln" := w] - {"wrkpln"} == map[];
  }

  /** `addParallel(l1, l2, plane=w)`: a keyword that names no option is reported as unknown. */
  lemma ParallelUnknownKeyword(l1: Value, l2: Value, w: Value, handle: Value)
    ensures Bind(Parallel, [l1, l2], map["plane" := w], handle) == Failure(UnknownKeys({"plane"}))
  {
    var kw := map["plane" := w];
    assert [l1, l2][..2] == [l1, l2] && [l1, l2][..1] == [l1];
    assert Positional(Fields(Parallel), [l1]) == map["l1" := l1];
    var attrs := map["l1" := l1, "l2" := l2];
    assert Positional(Fields(Parallel), [l1, l2]) == attrs;
    assert ResolveGroup(Arity(Parallel), [l1, l2], kw, handle).kw == kw;
    assert FillOptions(Parallel.opts, attrs, kw) == Success((attrs["wrkpln" := Num(0.0)], kw));
    assert kw.Keys == {"plane"};
  }

  /** The positional loop of `addPointsDistance(d, p1, p2, w)` binds all four fields. */
  lemma PointsDistancePositional(d: Value, p1: Value, p2: Value, w: Value)
    ensures Positional(Fields(PointsDistance), [d, p1, p2, w]) == map["d" := d, "p1" := p1, "p2" := p2, "wrkpln" := w]
  {
    var fields := Fields(PointsDistance);
    assert fields == ["d", "p1", "p2", "wrkpln"];
    assert [d][..0] == [] && [d, p1][..1] == [d] && [d, p1, p2][..2] == [d, p1] && [d, p1, p2, w][..3] == [d, p1, p2];
    assert Positional(fields, [d]) == map["d" := d];
    assert Positional(fields, [d, p1]) == map["d" := d, "p1" := p1];
    assert Positional(fields, [d, p1, p2]) == map["d" := d, "p1" := p1, "p2" := p2];
  }

  /** `addPointsDistance(d, p1, p2, w)`: the corrected binder keeps the workplane `w`. */
  lemma PointsDistanceWorkplane(d: Value, p1: Value, p2: Value, w: Value, handle: Value)
    ensures var b := Bind(PointsDistance, [d, p1, p2, w], map[], handle);
      b.Success? && b.value.attrs == map["d" := d, "p1" := p1, "p2" := p2, "wrkpln" := w]
  {
    PointsDistancePositional(d, p1, p2, w);
    assert [d, p1, p2, w][..4] == [d, p1, p2, w];
  }

  /** The same call as written: the options loop resets the workplane to 0. */
  lemma PointsDistanceWorkplaneAsWritten(d: Value, p1: Value, p2: Value, w: Value, handle: Value)
    ensures var b := BindAsWritten(PointsDistance, [d, p1, p2, w], map[], handle);
      b.Success? && b.value.attrs == map["d" := d, "p1" := p1, "p2" := p2, "wrkpln" := Num(0.0)]
  {
    PointsDistancePositional(d, p1, p2, w);
  }

  /**
   * `addPointsDistance(d, p1, p2, w, g)`: the corrected binder puts the
   * constraint in group `g`; as written, the fifth argument indexes past
   * `_opts`.
   */
  lemma PointsDistancePositionalGroup(d: Value, p1: Value, p2: Value, w: Value, g: Value, handle: Value)
    requires Truthy(g)
    ensures var b := Bind(PointsDistance, [d, p1, p2, w, g], map[], handle);
      b.Success? && b.value.group == g && b.value.attrs["wrkpln"] == w
    ensures BindAsWritten(PointsDistance, [d, p1, p2, w, g], map[], handle) == Failure(IndexOutOfRange)
  {
    var args := [d, p1, p2, w, g];
    PositionalGroupRaises(PointsDistance, args, map[], handle);
    BindSucceedsIff(PointsDistance, args, map[], handle);
    BoundPositional(PointsDistance, args, map[], handle);
  }

  /** `addPoint2dV(w, u, v)` under tag `?` names its parameters `?.Point2dV.u` and `?.Point2dV.v`. */
  lemma Point2dVTags()
    ensures VargTag("?", Point2dV.className, "u") == "?.Point2dV.u"
    ensures VargTag("?", Point2dV.className, "v") == "?.Point2dV.v"
    ensures VargTag("", Point2dV.className, "u") == "Point2dV.u"
  {
  }
}
