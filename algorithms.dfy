/**
 * The optimisation-algorithm descriptors: the `_Algo*` class hierarchy, its
 * inherited class attributes, the SciPy method name derived from the class
 * name, and the option/tolerance values handed to the optimiser.
 */
module Algorithms {

  import opened Wrappers

  /** Every class of the descriptor hierarchy: the three abstract ones and the eleven algorithms. */
  datatype AlgoClass =
    | AlgoBase | AlgoNoJacobian | AlgoNeedHessian
    | NelderMead | Powell | CG | BFGS | NewtonCG | LBFGSB | TNC | COBYLA | SLSQP | Dogleg | TrustNCG

  predicate IsConcrete(c: AlgoClass)
  {
    !(c.AlgoBase? || c.AlgoNoJacobian? || c.AlgoNeedHessian?)
  }

  /** The eleven algorithms a solver can be configured with. */
  type Algo = c: AlgoClass | IsConcrete(c) witness NelderMead

  /** The Python class name (`cls.__name__`). */
  function ClassName(c: AlgoClass): string
  {
    match c
    case AlgoBase => "_AlgoBase"
    case AlgoNoJacobian => "_AlgoNoJacobian"
    case AlgoNeedHessian => "_AlgoNeedHessian"
    case NelderMead => "_AlgoNelder_Mead"
    case Powell => "_AlgoPowell"
    case CG => "_AlgoCG"
    case BFGS => "_AlgoBFGS"
    case NewtonCG => "_AlgoNewton_CG"
    case LBFGSB => "_AlgoL_BFGS_B"
    case TNC => "_AlgoTNC"
    case COBYLA => "_AlgoCOBYLA"
    case SLSQP => "_AlgoSLSQP"
    case Dogleg => "_Algodogleg"
    case TrustNCG => "_Algotrust_ncg"
  }

  /** Distance from `_AlgoBase` in the single-inheritance hierarchy. */
  function Depth(c: AlgoClass): nat
  {
    match c
    case AlgoBase => 0
    case AlgoNoJacobian | AlgoNeedHessian | CG | LBFGSB | TNC => 1
    case NelderMead | COBYLA | SLSQP | NewtonCG | Dogleg | BFGS => 2
    case Powell | TrustNCG => 3
  }

  /** The base class named in each class statement. */
  function Parent(c: AlgoClass): (p: AlgoClass)
    requires !c.AlgoBase?
    ensures Depth(p) == Depth(c) - 1
  {
    match c
    case AlgoNoJacobian | AlgoNeedHessian | CG | LBFGSB | TNC => AlgoBase
    case NelderMead | COBYLA | SLSQP => AlgoNoJacobian
    case NewtonCG | Dogleg => AlgoNeedHessian
    case BFGS => CG
    case Powell => NelderMead
    case TrustNCG => Dogleg
  }

  // The class attributes each class body assigns itself (None: inherited).

  function OwnId(c: AlgoClass): Option<int>
  {
    match c
    case AlgoBase => Some(-2)
    case AlgoNoJacobian | AlgoNeedHessian => None
    case NelderMead => Some(0)
    case Powell => Some(1)
    case CG => Some(2)
    case BFGS => Some(3)
    case NewtonCG => Some(4)
    case LBFGSB => Some(5)
    case TNC => Some(6)
    case COBYLA => Some(7)
    case SLSQP => Some(8)
    case Dogleg => Some(9)
    case TrustNCG => Some(10)
  }

  function OwnOptions(c: AlgoClass): Option<seq<string>>
  {
    match c
    case AlgoBase => Some([])
    case NelderMead => Some(["maxfev", "xatol", "fatol"])
    case CG => Some(["norm", "gtol"])
    case NewtonCG => Some(["xtol"])
    case LBFGSB => Some(["maxcor", "factr", "ftol", "gtol", "maxfun", "maxls"])
    case TNC => Some(["offset", "maxCGit", "eta", "stepmx", "accuracy", "minifev", "ftol", "xtol", "gtol", "rescale"])
    case COBYLA => Some(["rhobeg", "tol"])
    case SLSQP => Some(["ftol"])
    case Dogleg => Some(["initial_trust_radius", "max_trust_radius", "eta", "gtol"])
    case AlgoNoJacobian | AlgoNeedHessian | Powell | BFGS | TrustNCG => None
  }

  function OwnNeedJacobian(c: AlgoClass): Option<bool>
  {
    match c
    case AlgoBase => Some(true)
    case AlgoNoJacobian => Some(false)
    case _ => None
  }

  function OwnNeedHessian(c: AlgoClass): Option<bool>
  {
    match c
    case AlgoBase => Some(false)
    case AlgoNeedHessian => Some(true)
    case _ => None
  }

  /** Python class-attribute lookup: the nearest class on the inheritance chain that assigns it. */
  function Inherited<T>(own: AlgoClass -> Option<T>, c: AlgoClass): T
    requires own(AlgoBase).Some?
    decreases Depth(c)
  {
    if own(c).Some? then own(c).value else Inherited(own, Parent(c))
  }

  function Id(c: AlgoClass): int { Inherited(OwnId, c) }
  function NeedJacobian(c: AlgoClass): bool { Inherited(OwnNeedJacobian, c) }
  function NeedHessian(c: AlgoClass): bool { Inherited(OwnNeedHessian, c) }

  /** `_common_options`, assigned only by `_AlgoBase`. */
  const CommonOptions: seq<string> := ["maxiter"]

  /** `_common_options + _options`: the option names `Options` looks up, in order. */
  function OptionNames(c: AlgoClass): seq<string>
  {
    CommonOptions + Inherited(OwnOptions, c)
  }

  /** `s[n:]` on a Python string: empty when the string is too short. */
  function DropPrefix(s: string, n: nat): (r: string)
    ensures |s| <= n ==> r == []
    ensures n <= |s| ==> s == s[..n] + r
  {
    if |s| <= n then [] else s[n..]
  }

  /** `s.replace(a, b)` for single characters. */
  function ReplaceChar(s: string, a: char, b: char): (r: string)
  {
    seq(|s|, i requires 0 <= i < |s| => if s[i] == a then b else s[i])
  }

  /** `getName`: the class name without its five-character `_Algo` prefix, `_` turned into `-`. */
  function GetName(c: AlgoClass): string
  {
    ReplaceChar(DropPrefix(ClassName(c), 5), '_', '-')
  }

  /** The method names SciPy's `minimize` documents for the eleven algorithms. */
  function SciPyMethod(a: Algo): string
  {
    match a
    case NelderMead => "Nelder-Mead"
    case Powell => "Powell"
    case CG => "CG"
    case BFGS => "BFGS"
    case NewtonCG => "Newton-CG"
    case LBFGSB => "L-BFGS-B"
    case TNC => "TNC"
    case COBYLA => "COBYLA"
    case SLSQP => "SLSQP"
    case Dogleg => "dogleg"
    case TrustNCG => "trust-ncg"
  }

  /** `getName` yields exactly the SciPy method name of every algorithm. */
  lemma {:induction false} NameTable(a: Algo)
    ensures GetName(a) == SciPyMethod(a)
  {
    if a.NelderMead? || a.NewtonCG? || a.LBFGSB? || a.TrustNCG? {
      DashedNames(a);
    } else {
      PlainNames(a);
    }
  }

  /** The class names whose `_` become `-`. */
  lemma {:induction false} DashedNames(a: Algo)
    requires a.NelderMead? || a.NewtonCG? || a.LBFGSB? || a.TrustNCG?
    ensures GetName(a) == SciPyMethod(a)
  {
    match a
    case NelderMead =>
      assert ClassName(NelderMead)[5..] == "Nelder_Mead";
      assert ReplaceChar("Nelder_Mead", '_', '-') == "Nelder-Mead";
    case NewtonCG =>
      assert ClassName(NewtonCG)[5..] == "Newton_CG";
      assert ReplaceChar("Newton_CG", '_', '-') == "Newton-CG";
    case LBFGSB =>
      assert ClassName(LBFGSB)[5..] == "L_BFGS_B";
      assert ReplaceChar("L_BFGS_B", '_', '-') == "L-BFGS-B";
    case TrustNCG =>
      assert ClassName(TrustNCG)[5..] == "trust_ncg";
      assert ReplaceChar("trust_ncg", '_', '-') == "trust-ncg";
  }

  /** The class names that `getName` only strips of their prefix. */
  lemma {:induction false} PlainNames(a: Algo)
    requires a.Powell? || a.CG? || a.BFGS? || a.TNC? || a.COBYLA? || a.SLSQP? || a.Dogleg?
    ensures GetName(a) == SciPyMethod(a)
  {
    match a
    case Powell =>
      assert ClassName(Powell)[5..] == "Powell";
      assert ReplaceChar("Powell", '_', '-') == "Powell";
    case CG =>
      assert ClassName(CG)[5..] == "CG";
      assert ReplaceChar("CG", '_', '-') == "CG";
    case BFGS =>
      assert ClassName(BFGS)[5..] == "BFGS";
      assert ReplaceChar("BFGS", '_', '-') == "BFGS";
    case TNC =>
      assert ClassName(TNC)[5..] == "TNC";
      assert ReplaceChar("TNC", '_', '-') == "TNC";
    case COBYLA =>
      assert ClassName(COBYLA)[5..] == "COBYLA";
      assert ReplaceChar("COBYLA", '_', '-') == "COBYLA";
    case SLSQP =>
      assert ClassName(SLSQP)[5..] == "SLSQP";
      assert ReplaceChar("SLSQP", '_', '-') == "SLSQP";
    case Dogleg =>
      assert ClassName(Dogleg)[5..] == "dogleg";
      assert ReplaceChar("dogleg", '_', '-') == "dogleg";
  }

  /** Every class name starts with `_Algo` and contains no `-`. */
  lemma ClassNameShape(c: AlgoClass)
    ensures |ClassName(c)| >= 5 && ClassName(c)[..5] == "_Algo"
    ensures forall i :: 0 <= i < |ClassName(c)| ==> ClassName(c)[i] != '-'
  {
  }

  /** Undoing `getName`: put `_Algo` back and turn `-` into `_`. */
  function ClassNameOf(name: string): string
  {
    "_Algo" + ReplaceChar(name, '-', '_')
  }

  /** Replacing `a` by `b` is undone by replacing `b` by `a` when `b` did not occur. */
  lemma ReplaceRoundTrip(s: string, a: char, b: char)
    requires forall i :: 0 <= i < |s| ==> s[i] != b
    ensures ReplaceChar(ReplaceChar(s, a, b), b, a) == s
  {
  }

  /** The method name determines the class: `getName` loses nothing. */
  lemma {:induction false} GetNameRoundTrip(c: AlgoClass)
    ensures ClassNameOf(GetName(c)) == ClassName(c)
  {
    ClassNameShape(c);
    var s := ClassName(c);
    var tail := DropPrefix(s, 5);
    assert forall i :: 0 <= i < |tail| ==> tail[i] == s[i + 5];
    ReplaceRoundTrip(tail, '_', '-');
  }

  /** Distinct algorithms are handed to SciPy under distinct method names. */
  lemma {:induction false} GetNameInjective(c: AlgoClass, d: AlgoClass)
    requires GetName(c) == GetName(d)
    ensures c == d
  {
    GetNameRoundTrip(c);
    GetNameRoundTrip(d);
  }

  /** `NeedJacobian` is false exactly for the `_AlgoNoJacobian` family. */
  lemma {:induction false} JacobianFamily(a: Algo)
    ensures !NeedJacobian(a) <==> (a.NelderMead? || a.Powell? || a.COBYLA? || a.SLSQP?)
  {
  }

  /** `NeedHessian` is true exactly for the `_AlgoNeedHessian` family, which also needs a Jacobian. */
  lemma {:induction false} HessianFamily(a: Algo)
    ensures NeedHessian(a) <==> (a.NewtonCG? || a.Dogleg? || a.TrustNCG?)
    ensures NeedHessian(a) ==> NeedJacobian(a)
  {
  }

  /** Each algorithm's `_id` is its own number from 0 to 10. */
  lemma {:induction false} IdsDistinct(a: Algo, b: Algo)
    ensures 0 <= Id(a) <= 10
    ensures Id(a) == Id(b) ==> a == b
  {
  }

  /** Subclasses that assign no `_options` take their parent's. */
  lemma {:induction false} OptionTable()
    ensures OptionNames(NelderMead) == OptionNames(Powell) == ["maxiter", "maxfev", "xatol", "fatol"]
    ensures OptionNames(CG) == OptionNames(BFGS) == ["maxiter", "norm", "gtol"]
    ensures OptionNames(Dogleg) == OptionNames(TrustNCG)
                                == ["maxiter", "initial_trust_radius", "max_trust_radius", "eta", "gtol"]
    ensures OptionNames(NewtonCG) == ["maxiter", "xtol"]
    ensures OptionNames(SLSQP) == ["maxiter", "ftol"]
    ensures OptionNames(COBYLA) == ["maxiter", "rhobeg", "tol"]
    ensures OptionNames(LBFGSB) == ["maxiter", "maxcor", "factr", "ftol", "gtol", "maxfun", "maxls"]
    ensures OptionNames(TNC) == ["maxiter", "offset", "maxCGit", "eta", "stepmx", "accuracy", "minifev",
                                 "ftol", "xtol", "gtol", "rescale"]
  {
  }

  /**
   * `Options`: the option values stored on the host object, keeping only the
   * names the algorithm lists and only values that are truthy (non-zero).
   * `props` holds the host object's property values; a name it lacks reads as None.
   */
  method Options(a: Algo, props: map<string, real>) returns (ret: map<string, real>)
    ensures forall k :: k in ret <==> k in OptionNames(a) && k in props && props[k] != 0.0
    ensures forall k :: k in ret ==> ret[k] == props[k]
  {
    ret := map[];
    var keys := OptionNames(a);
    var i := 0;
    while i < |keys|
      invariant 0 <= i <= |keys|
      invariant forall k :: k in ret <==> k in keys[..i] && k in props && props[k] != 0.0
      invariant forall k :: k in ret ==> ret[k] == props[k]
    {
      var name := keys[i];
      assert keys[..i + 1] == keys[..i] + [name];
      if name in props && props[name] != 0.0 {
        ret := ret[name := props[name]];
      }
      i := i + 1;
    }
    assert keys[..i] == keys;
  }

  /** `Tolerance`: a stored tolerance of zero means "let the optimiser choose" (None). */
  function Tolerance(tol: real): (r: Option<real>)
    ensures r.None? <==> tol == 0.0
    ensures r.Some? ==> r.value == tol
  {
    if tol != 0.0 then Some(tol) else None
  }
}
