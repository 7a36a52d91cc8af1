# A Dafny model of the SymPy/SciPy solver back end of FreeCAD_assembly3

`sys_sympy.py` is the assembly solver back end that builds symbolic
equations with SymPy and minimises their sum of squares with SciPy. The
core modelled here is the non-numeric part of it:

- **the algorithm descriptors** (`_AlgoBase` and its subclasses). These
  cover the inherited class attributes `_id`, `NeedJacobian`,
  `NeedHessian` and `_options`, the SciPy method name `getName` derives
  from the class name, and the `Options` and `Tolerance` values handed
  to the optimiser (module `Algorithms`, file `algorithms.dfy`).
- **factory argument binding**, `_MetaBase.__init__`. This covers group
  resolution, the arity checks, positional and keyword binding of
  `_args` and `_opts` with defaults, the duplicate and unknown keyword
  errors, and the naming of the parameters created for `_vargs`
  fields. The binder is modelled both as the source intends and as it
  is written (module `Binding`, file `binding.dfy`). A few concrete
  factory classes and calls are in module `Registry` (`registry.dfy`).
- **the system object and its objects**. This covers
  - `_Param` and `_MetaBase` instances with their `reset` and memoised
    `SymObj` state;
  - the `add*`/`get*`/`addParamV` container operations;
  - the factory call itself, an imperative method proved against the
    intended binder (the binder with Findings 1-3 below corrected), which
    creates one parameter per `_vargs` field under a derived `NameTag`;
  - the parameter partition at the start of a `solve` pass (module
    `SymPySystem`, file `system.dfy`).
- **the conditioning rules** of `_vectorsParallel`, `_vectorsEqual`,
  `_SameOrientation` and `_Parallel`. These cover which cross-product
  components are kept, the operand swap, and the choice between the two
  axis dot products. They are stated over components already evaluated
  at the current parameter values (module `Conditioning`, file
  `conditioning.dfy`).

Python values are modelled by `Values.Value`: a number (ints, floats and
booleans compare numerically, so one `real` covers them) or an object
reference compared by identity. Results that can raise are `Result`s
whose error says which exception escapes.

## Model

| member | source | states |
|---|---|---|
| Values.ToReal | sys_sympy.py:262-267 | `sp.Float(v)` succeeds exactly on numbers and keeps their value |
| Values.Access | sys_sympy.py:251-255 | the first `SymObj` access stores the computed object; later accesses return the stored one |
| Values.AccessIsStable | sys_sympy.py:251-255 | once computed, a memo returns the same value whatever a later computation would give |
| Algorithms.Inherited | sys_sympy.py:27-202 | Python class-attribute lookup: the value assigned by the nearest class on the inheritance chain, ending at `_AlgoBase` |
| Algorithms.Id | sys_sympy.py:27-202 | the inherited `_id`; IdsDistinct states its values |
| Algorithms.NeedJacobian | sys_sympy.py:27-202 | the inherited `NeedJacobian`; JacobianFamily states its values |
| Algorithms.NeedHessian | sys_sympy.py:27-202 | the inherited `NeedHessian`; HessianFamily states its values |
| Algorithms.OptionNames | sys_sympy.py:46-46 | `_common_options + _options`, the names `Options` looks up; OptionTable states them |
| Algorithms.GetName | sys_sympy.py:39-41 | the class name without its `_Algo` prefix, `_` turned into `-`; NameTable, GetNameRoundTrip and GetNameInjective state its properties |
| Algorithms.Parent | sys_sympy.py:62-202 | each descriptor class's base sits one level closer to `_AlgoBase`, so attribute lookup terminates |
| Algorithms.DropPrefix | sys_sympy.py:39-41 | `s[5:]` is empty for short strings and otherwise the suffix after the prefix |
| Algorithms.NameTable | sys_sympy.py:39-41 | `getName` yields the documented SciPy `minimize` method name for all eleven algorithms |
| Algorithms.DashedNames | sys_sympy.py:39-41 | for Nelder-Mead, Newton-CG, L-BFGS-B and trust-ncg, turning `_` into `-` gives the SciPy name |
| Algorithms.PlainNames | sys_sympy.py:39-41 | for the other seven algorithms, stripping `_Algo` alone gives the SciPy name |
| Algorithms.ClassNameShape | sys_sympy.py:27-202 | every descriptor class name starts with `_Algo` and contains no `-` |
| Algorithms.ReplaceRoundTrip | sys_sympy.py:39-41 | replacing `a` by `b` is undone by replacing `b` by `a` when `b` did not occur |
| Algorithms.GetNameRoundTrip | sys_sympy.py:39-41 | the class name is recovered from `getName`, so no information is lost |
| Algorithms.GetNameInjective | sys_sympy.py:39-41 | distinct descriptor classes get distinct method names |
| Algorithms.JacobianFamily | sys_sympy.py:27-202 | `NeedJacobian` is false exactly for Nelder-Mead, Powell, COBYLA and SLSQP, the `_AlgoNoJacobian` family |
| Algorithms.HessianFamily | sys_sympy.py:27-202 | `NeedHessian` is true exactly for Newton-CG, dogleg and trust-ncg, and these also need the Jacobian |
| Algorithms.IdsDistinct | sys_sympy.py:27-202 | every algorithm's inherited `_id` lies in 0..10 and belongs to no other algorithm |
| Algorithms.OptionTable | sys_sympy.py:65-202 | the option names each of the eleven algorithms looks up, in order, with `_options` inherited by Powell, BFGS and trust-ncg |
| Algorithms.Options | sys_sympy.py:43-51 | the map contains exactly the algorithm's option names whose stored value is truthy (non-zero), with those values |
| Algorithms.Tolerance | sys_sympy.py:53-56 | a zero tolerance becomes `None`; any other is passed on unchanged |
| Binding.Positional | sys_sympy.py:328-336 | the positional `setattr` loop of the intended binder; PositionalFacts states its result |
| Binding.FillOptions | sys_sympy.py:337-348 | the intended options loop; FillOptionsOutcome, FillOptionsLeftover, FillOptionsKeeps and FillOptionsValues state its result |
| Binding.Bind | sys_sympy.py:306-352 | the intended `_MetaBase.__init__` up to the `_vargs` step; BindSucceedsIff, ArityErrors and BoundAttributes state its result |
| Binding.FillOptionsAsWritten | sys_sympy.py:337-348 | the options loop as written; FillOptionsAsWrittenValues and FillOptionsAsWrittenKeeps state its result |
| Binding.BindAsWritten | sys_sympy.py:306-352 | `_MetaBase.__init__` as written, up to the `_vargs` step; the Findings lemmas compare it with `Bind` |
| Binding.VargTag | sys_sympy.py:354-361 | the `NameTag` a `_vargs` parameter is created under: `<saved>.<class>.<field>`, or `<class>.<field>` with an empty saved tag; VargTagsDistinct states its property |
| Binding.ResolveGroup | sys_sympy.py:312-321 | the group keyword, else a surplus positional argument, else 0, replaced by `GroupHandle` when falsy; `group` is removed from the keywords and the others are kept; one extra argument is allowed only when it carried the group |
| Binding.ResolvedGroupTruthy | sys_sympy.py:320-321 | with a truthy system handle the resolved group is always truthy |
| Binding.GroupKeywordWins | sys_sympy.py:312-316 | a truthy `group` keyword is the group, and no positional surplus is then allowed |
| Binding.PositionalFacts | sys_sympy.py:328-336 | positional binding binds exactly the first fields, the i-th argument to the i-th field |
| Binding.FillOptionsOutcome | sys_sympy.py:337-348 | the options loop fails exactly when a keyword names an option already bound positionally, and then names that keyword |
| Binding.FillOptionsLeftover | sys_sympy.py:337-348 | the keywords left after the options loop are exactly those naming no option, with their values |
| Binding.FillOptionsKeeps | sys_sympy.py:337-348 | the options loop adds exactly the option names and leaves positionally bound fields unchanged |
| Binding.FillOptionsValues | sys_sympy.py:337-348 | an option not bound positionally gets its keyword value, or else its default (0 unless the option declares one) |
| Binding.ArityErrors | sys_sympy.py:324-327 | `not enough parameters` exactly when fewer arguments than `_args`; `too many parameters` exactly when there are enough but more than allowed |
| Binding.DuplicatesMatch | sys_sympy.py:341-346 | a keyword names an option bound positionally exactly when some option is both given positionally and named by a keyword |
| Binding.LeftoverMatch | sys_sympy.py:349-352 | after the options loop, keywords remain exactly when one names no option |
| Binding.BindSucceedsIff | sys_sympy.py:306-352 | binding succeeds exactly when the arity is right, no option is given twice and no keyword is unknown |
| Binding.DuplicateKeyError | sys_sympy.py:341-346 | a duplicate-key error names a non-group keyword whose option was also given positionally |
| Binding.UnknownKeysError | sys_sympy.py:349-352 | an unknown-key error reports a non-empty set: exactly the keywords that name no option |
| Binding.BoundKeys | sys_sympy.py:306-352 | after success, the group is the resolved one and the attributes are exactly `_args` and `_opts` |
| Binding.BoundPositional | sys_sympy.py:328-336 | after success, each positional argument is the value of its field |
| Binding.BoundOptions | sys_sympy.py:337-348 | after success, each option not given positionally holds its keyword value or its default |
| Binding.BoundAttributes | sys_sympy.py:306-352 | the three facts above together |
| Binding.PositionalGroupAccepted | sys_sympy.py:316-335 | one argument past all fields is taken as the group (the handle when falsy) and binds no field |
| Binding.Raise | sys_sympy.py:366-386 | formatting `str(self)` raises AttributeError exactly when a field is still unbound; otherwise the intended error escapes |
| Binding.FillOptionsAgree | sys_sympy.py:337-348 | when no option is bound beforehand, the options loop as written equals the intended one |
| Binding.AgreeWithoutPositionalOptions | sys_sympy.py:306-352 | with exactly `_args` passed positionally, the binder as written and the intended one agree, errors included |
| Binding.FillOptionsAsWrittenValues | sys_sympy.py:337-348 | as written, every option ends up with its keyword value or its default |
| Binding.FillOptionsAsWrittenKeeps | sys_sympy.py:337-348 | as written, the loop adds exactly the option names and leaves the `_args` fields unchanged |
| Binding.PositionalGroupRaises | sys_sympy.py:328-336 | as written, a positional group always ends in IndexError |
| Binding.PositionalOptionsDiscarded | sys_sympy.py:337-348 | as written, after success every option holds its keyword value or its default, whatever was passed for it positionally |
| Binding.ArityErrorsSurfaceAsAttributeError | sys_sympy.py:324-327 | as written, both arity ValueErrors surface as AttributeError |
| Binding.VargTagsDistinct | sys_sympy.py:354-361 | different fields of one call get different parameter names |
| Binding.NumericPrefix | sys_sympy.py:357-362 | counts the leading `_vargs` fields that hold numbers: all before it are numeric and the one at it is not |
| Registry.Entity | sys_sympy.py:472-476 | an `_Entity` subclass with the given `_args` and `_vargs` is well formed, and its fields are its `_args` |
| Registry.Plain | sys_sympy.py:676-680 | a `_Constraint` subclass without options is well formed, and its fields are its `_args` |
| Registry.Projecting | sys_sympy.py:682-683 | a `_ProjectingConstraint` subclass inherits the one option `wrkpln` and takes one more argument |
| Registry.PointsDistancePositional | sys_sympy.py:688-689 | `addPointsDistance(d, p1, p2, w)` binds `d`, `p1`, `p2` and `wrkpln` positionally |
| Registry.PointsDistanceWorkplane | sys_sympy.py:337-348 | the intended binder keeps the workplane passed positionally |
| Registry.PointsDistanceWorkplaneAsWritten | sys_sympy.py:337-348 | the binder as written replaces that workplane by 0 |
| Registry.PointsDistancePositionalGroup | sys_sympy.py:328-336 | a fifth positional argument is the group under the intended binder and an IndexError as written |
| Registry.SameOrientationKeywordGroup | sys_sympy.py:901-902 | `addSameOrientation(n1, n2, group=g)` binds both normals, with `g` as the group and no other field |
| Registry.ParallelWorkplaneKeyword | sys_sympy.py:934-935 | `addParallel(l1, l2, wrkpln=w)` binds both lines and the workplane `w`, with the system handle as the group |
| Registry.ParallelUnknownKeyword | sys_sympy.py:349-352 | `addParallel(l1, l2, plane=w)` fails, reporting `plane` as the one unknown keyword |
| Registry.Point2dVTags | sys_sympy.py:499-500 | `addPoint2dV` names its parameters `?.Point2dV.u` and `?.Point2dV.v` under the initial tag |
| SymPySystem.DisplayName | sys_sympy.py:245-249 | `<unknown>` exactly for an empty name, otherwise the name in double quotes |
| SymPySystem.Param.constructor | sys_sympy.py:262-267 | a parameter has its name, value and group, and no cached form (the base constructor clears it) |
| SymPySystem.Param.SymObj | sys_sympy.py:251-255 | the cached symbolic form, absent before any reset |
| SymPySystem.Param.Reset | sys_sympy.py:269-273 | after a reset, the parameter is its free symbol exactly when it belongs to the group, otherwise its fixed value |
| SymPySystem.MetaBase.constructor | sys_sympy.py:235-239 | a new object has its spec, name, group and attributes, no solving group and no cached expression |
| SymPySystem.MetaBase.Reset | sys_sympy.py:241-243 | records the solving group and clears the cached expression |
| SymPySystem.MetaBase.SymObj | sys_sympy.py:251-255 | the first access stores the computed expression; later accesses return it unchanged |
| SymPySystem.Lookup | sys_sympy.py:1151-1154 | a lookup succeeds exactly when the handle is held, and returns the handle itself |
| SymPySystem.LookupAfterAdd | sys_sympy.py:1151-1162 | after adding `v`, looking up `v` succeeds and other lookups are unaffected |
| SymPySystem.CreatedParamsExtend | sys_sympy.py:357-362 | a new parameter made for the next `_vargs` field extends the created sequence |
| SymPySystem.SubstitutedPrefix | sys_sympy.py:357-362 | the replacement of the first n fields depends only on the first n parameters |
| SymPySystem.SubstitutedStep | sys_sympy.py:357-362 | replacing one more field is one more map update |
| SymPySystem.SubstitutedFacts | sys_sympy.py:357-362 | after replacing the first n `_vargs` fields, each holds a reference to its parameter, the other fields are unchanged and no key is added |
| SymPySystem.BindPositional | sys_sympy.py:328-336 | the positional `setattr` loop over the first `n` arguments yields the intended positional binding |
| SymPySystem.FillOptionsLoop | sys_sympy.py:337-348 | the options `for` loop yields the result of the intended options loop `Binding.FillOptions`, the error included |
| SymPySystem.SymPySystem.constructor | sys_sympy.py:966-981 | a new system has `NameTag` `?` and no parameters, entities or constraints |
| SymPySystem.SymPySystem.AddParam | sys_sympy.py:1159-1162 | adds the parameter to `Params` and returns it |
| SymPySystem.SymPySystem.AddConstraint | sys_sympy.py:1172-1175 | adds the constraint to `Constraints` and returns it |
| SymPySystem.SymPySystem.AddEntity | sys_sympy.py:1185-1188 | adds the entity to `Entities` and returns it |
| SymPySystem.SymPySystem.GetParam | sys_sympy.py:1151-1154 | the handle when held, otherwise a not-found error |
| SymPySystem.SymPySystem.GetConstraint | sys_sympy.py:1164-1167 | the handle when held, otherwise a not-found error |
| SymPySystem.SymPySystem.GetEntity | sys_sympy.py:1177-1180 | the handle when held, otherwise a not-found error |
| SymPySystem.SymPySystem.AddParamV | sys_sympy.py:1190-1193 | a new parameter named by the current `NameTag`, in the given group or `GroupHandle` when falsy, without a cached form, is added to `Params` |
| SymPySystem.SymPySystem.GroupStep | sys_sympy.py:312-321 | the imperative group resolution equals the pure one |
| SymPySystem.SymPySystem.BindArguments | sys_sympy.py:306-352 | the imperative binder equals the intended binder `Binding.Bind` on every input, so it departs from the source on the inputs of Findings 1-3 |
| SymPySystem.SymPySystem.NewVargParam | sys_sympy.py:358-362 | sets `NameTag` to the field's tag; creates and adds a parameter made for that field exactly when its value is a number |
| SymPySystem.SymPySystem.CreateVargParams | sys_sympy.py:353-363 | one fresh parameter per leading numeric `_vargs` field, each named by its tag and holding the value and group; on success, fields replaced by the parameters and `NameTag` restored; otherwise the first non-numeric field is reported and `NameTag` is left at its tag |
| SymPySystem.SymPySystem.Build | sys_sympy.py:306-363 | with the intended binder: on a binding error no parameter is created and `NameTag` is unchanged; otherwise as above, and on success a fresh object with the saved tag as name, the resolved group and the substituted attributes |
| SymPySystem.SymPySystem.Make | sys_sympy.py:474-476 | the `add<Name>` factory with the intended binder: as `Build`, and the object is added to `Entities` or `Constraints` according to its kind (`_Constraint.make`, lines 678-680); nothing is added on failure |
| SymPySystem.SymPySystem.ResetParams | sys_sympy.py:1014-1018 | resets every parameter for the group; the returned table holds exactly the group's parameters, with their values |
| SymPySystem.SymPySystem.ResetObjects | sys_sympy.py:1022-1025 | every object records the solving group and loses its cached expression |
| SymPySystem.SymPySystem.PartitionParams | sys_sympy.py:999-1025 | with the group defaulting to `GroupHandle`: resets the parameters, fails with no parameter exactly when none is in the group, and otherwise resets every constraint and entity and returns the group's parameters with their values |
| Conditioning.Dominant | sys_sympy.py:455-461 | the chosen axis has a maximal magnitude; x exactly when strictly longer than y and z; y exactly when x is not longer and y is strictly longer than z |
| Conditioning.Others | sys_sympy.py:456-461 | the two components kept are distinct and differ from the dominant axis |
| Conditioning.SelectParallel | sys_sympy.py:450-461 | two components of the cross product, on the axes other than the dominant one |
| Conditioning.DominantNonZero | sys_sympy.py:455-461 | the dominant component of a non-zero vector is non-zero |
| Conditioning.CrossOrthogonal | sys_sympy.py:453-453 | a vector is orthogonal to its cross product with any other vector |
| Conditioning.ParallelSelectionSound | sys_sympy.py:450-461 | for every `a` and `b`, the two kept components vanish exactly when `a × b` does, that is when `b` is parallel to `a` |
| Conditioning.Evalf | sys_sympy.py:445-448 | evaluating at every free parameter keeps the value and leaves no free symbol |
| Conditioning.Kept | sys_sympy.py:1036-1039 | solve keeps exactly the components that still mention a free symbol |
| Conditioning.VectorsParallelAsWritten | sys_sympy.py:450-461 | as written, both kept components are evaluated before they are returned |
| Conditioning.VectorsParallelDropped | sys_sympy.py:1036-1039 | as written, solve drops every equation of `_vectorsParallel` |
| Conditioning.VectorsParallel | sys_sympy.py:450-461 | as intended, two components, chosen by the evaluated magnitudes but returned symbolic |
| Conditioning.VectorsParallelKept | sys_sympy.py:1036-1039 | as intended, components that mention a free parameter reach the solver |
| Conditioning.OrderOperands | sys_sympy.py:904-908 | the operands are swapped exactly when the first is in the solving group, also when both are; so the leading one is in the solving group only if both are |
| Conditioning.PickSmaller | sys_sympy.py:911-915 | one of the two dot products with the smaller magnitude; on a tie the second |
| Conditioning.SameOrientation | sys_sympy.py:904-916 | three equations: the two cross-product components of the ordered operands chosen by the corrected `_vectorsParallel`, then the smaller of the two axis dot products |
| Conditioning.SameOrientationParallel | sys_sympy.py:904-916 | for all normals, the first two equations vanish exactly when the normals are parallel, whichever operand leads |
| Conditioning.CrossAntisymmetric | sys_sympy.py:937-944 | swapping the operands does not change whether the cross product vanishes |
| Conditioning.Parallel | sys_sympy.py:937-944 | after the operand swap: without a workplane, the two chosen cross-product components (corrected `_vectorsParallel`) of the ordered lines; with one, the single component of their cross product along the workplane normal |
| Conditioning.ParallelNoPlaneSound | sys_sympy.py:937-944 | for all lines without a workplane, both equations vanish exactly when the lines are parallel, whichever line leads |
| Conditioning.ParallelWorkplaneSwap | sys_sympy.py:937-944 | with a workplane, the operand swap at most flips the sign of the equation |
| Conditioning.VectorsEqual | sys_sympy.py:463-470 | the componentwise differences, on x and y only when projected |
| Conditioning.VectorsEqualZero | sys_sympy.py:463-470 | all differences vanish exactly when the vectors agree on the compared components |

## Left out

- Symbolic algebra and numerics are left out: SymPy expressions, `lambdify`, Jacobians, Hessians and SciPy's `minimize`. An object's `getSymObj` result is an opaque token passed in by the caller. The conditioning rules work on component values that are already evaluated. A component built from two operands is marked free when either operand's group is the solving group, which assumes that an operand's parameters all belong to the operand's own group.
- `Conditioning.SameOrientation / Conditioning.Parallel`: they use the intended `_vectorsParallel` (`Conditioning.VectorsParallel`), whose chosen components stay symbolic. On the inputs of Finding 4, that is every `_SameOrientation` and every `_Parallel` without a workplane, they therefore differ from the source, whose first two equations are evaluated and then dropped by `solve`.
- The rest of `solve` is left out: equation generation, the single-symbol and two-symbol substitutions with the restart loop, and writing the solution back. Because of this, `Param.val`, `_val` and `group` never change in the model, and they are `const` fields.
- The `getEq` residual formulas of the individual entities and constraints are left out, as are `_project` and `_distance` and the other geometry helpers.
- Faults in equation code are left out with the rest of `getEq`:
  - `_Angle.getEq` reads `self.Angle`, a property that does not exist (the class defines `DirectionCosine`);
  - `_Perpendicular.getEq` reads the misspelled `DirectionConsine`;
  - `_PointOnCircle.getEq` subtracts `self.center.Vector`, but the constraint has no `center` (the circle's centre is `self.circle.center`), and it subtracts that from the list `_project` returns rather than from a vector;
  - `_pointPlaneDistance` passes `_project` a list where it expects points;
  - `_EqualLineArcLength.getEq` raises NotImplementedError.
- Only a few factory classes are in `Registry`: `_Point2dV`, `_SameOrientation`, `_PointsDistance` and `_Parallel`. The metaclass registration of all classes and the `add<Name>` methods it installs are modelled through `SymPySystem.SymPySystem.Make` taking the class spec, not as a table.
- `SymPySystem.SymPySystem.Build / Make`: they bind with the intended binder `Binding.Bind`, not with `Binding.BindAsWritten`. On the inputs of Findings 1-3 the modelled `add<Name>` therefore differs from the source: it accepts a positional group where the source raises IndexError (line 333), keeps a positional option where the source overwrites it (line 348), and reports an arity error as such where the source raises AttributeError (lines 324-327). As written, a duplicate-key KeyError likewise surfaces as AttributeError whenever a later option is still unbound, which `Binding.BindAsWritten` models and `Binding.Bind` reports as `DuplicateKey`; no source class declares two options, so no factory reaches this case.
- `SymPySystem.SymPySystem.Make`: requires `WellFormed`, meaning distinct field names that do not clash with `_Base` attributes and `_vargs` drawn from the fields. This is a property of the class definitions, not something a caller passes.
- `SymPySystem.SymPySystem.Build`: creates the object after binding, from the bound attributes. The source sets the attributes on `self` one by one, so a failed call leaves no half-built object in the model.
- `SymPySystem.SymPySystem.CreateVargParams`: reads each `_vargs` field's value from the attributes bound before substitution. The source reads `getattr(self, k)` after earlier fields were replaced; this is the same value because `_vargs` names are distinct.
- `SymPySystem.SymPySystem.PartitionParams`: the table the source keys by each parameter's symbol is keyed by the parameter object. The iteration order of Python sets is not modelled.
- `Binding.UnknownKeysError`: reports the whole set of unknown keywords. The source raises on the first one it iterates to, which depends on dict order.
- `SymPySystem.SymPySystem.NewVargParam`: a non-numeric value is modelled as an object reference, which `sp.Float` rejects. The source also accepts numeric strings, and `Value` has no strings.
- Error message texts, logging, `__repr__` and `_repr` are left out. They appear only through `Binding.Raise`, which says whether formatting a message fails.
- `removeParam` and `removeConstraint` are left out: they call `set.pop` with an argument, which Python rejects. `removeEntity` does nothing, and the system `reset()` is left out.
- `isConstraintSupported`, the FreeCAD property plumbing (`_makeProp`, `getPropertyInfo`, `onChanged`) and the `overwrite` arguments, which are ignored, are left out.
- `kargs=None` is modelled as the empty keyword map.
- `_Base.solvingGroup` of a `_Param` is not modelled, because `_Param.reset` never sets it.

## Findings

| source | as written | input that shows it | evidently intended | confidence | as-written member | corrected member |
|---|---|---|---|---|---|---|
| sys_sympy.py:328-336 | the arity check admits one extra positional argument as the group, but the `setattr` loop then indexes `_opts` with it | `addPointsDistance(d, p1, p2, w, g)` raises IndexError | the extra argument is only the group, and the loop binds the first `n` arguments | not executed | Registry.PointsDistancePositionalGroup | Binding.PositionalGroupAccepted |
| sys_sympy.py:337-348 | the options loop sets every option to its keyword value or its default, so an option given positionally is overwritten | `addPointsDistance(d, p1, p2, w)` ends with `wrkpln == 0` | an option bound positionally keeps its value | not executed | Registry.PointsDistanceWorkplaneAsWritten | Registry.PointsDistanceWorkplane |
| sys_sympy.py:324-327 | the ValueError messages format `str(self)`, whose `_repr` reads fields that are not yet bound | `addPointsDistance()` raises AttributeError, not ValueError | the arity errors escape as ValueError | not executed | Binding.ArityErrorsSurfaceAsAttributeError | Binding.ArityErrors |
| sys_sympy.py:450-461 | `_vectorsParallel` evaluates its chosen components at the current parameter values, so they have no free symbols and `solve` (lines 1036-1039) drops them | any `_SameOrientation`, or a `_Parallel` without a workplane | only the magnitudes used to choose are evaluated; the components stay symbolic | not executed | Conditioning.VectorsParallelDropped | Conditioning.VectorsParallelKept |
