/**
 * The stateful part of the solver: parameters and entity/constraint objects
 * with their reset and memo state, and the system object that owns them,
 * builds them through the factories and partitions the parameters at the
 * start of a solve pass. The SymPy expression an object computes is an
 * abstract token passed in by the caller.
 */
module SymPySystem {

  import opened Wrappers
  import opened Values
  import opened Binding

  /** A parameter's symbolic form: its own free symbol, or the number it is fixed at. */
  datatype ParamForm = Free | Fixed(val: real)

  /** Stands for the SymPy expression `getSymObj` builds for an entity or constraint. */
  datatype SymExpr = SymExpr(id: nat)

  /** The `Name` property: the name in double quotes, or `<unknown>` when it is empty. */
  function DisplayName(name: string): (r: string)
    ensures r == "<unknown>" <==> name == ""
    ensures name != "" ==> |r| == |name| + 2 && r[0] == '"' && r[|r| - 1] == '"' && r[1..|r| - 1] == name
  {
    if name != "" then
      assert ("\"" + name + "\"")[0] != "<unknown>"[0];
      "\"" + name + "\""
    else "<unknown>"
  }

  /** `_Param`. Its solving group is never set, so it is not modelled. */
  class Param {
    const name: string
    const val: real
    /** `_val`: the number the fixed form stands for. */
    const fixedVal: real
    const group: Value
    var form: Cache<ParamForm>

    /** The base constructor runs last and clears the cached form, so a new parameter has none. */
    constructor (name: string, v: real, g: Value)
      ensures this.name == name && val == v && fixedVal == v && group == g && form == Unset
    {
      this.name := name;
      val := v;
      fixedVal := v;
      group := g;
      form := Unset;
    }

    /** `SymObj`: the cached form; `None` stands for the AttributeError raised before any reset. */
    function SymObj(): (r: Option<ParamForm>)
      reads this
      ensures r.Some? <==> form.Computed?
      ensures r.Some? ==> r.value == form.value
    {
      if form.Computed? then Some(form.value) else None
    }

    /** `_Param.reset`: free exactly when the parameter belongs to the group being solved. */
    method Reset(g: Value)
      modifies this`form
      ensures form == Computed(if group == g then Free else Fixed(fixedVal))
      ensures SymObj() == Some(Free) <==> group == g
    {
      if group == g {
        form := Computed(Free);
      } else {
        form := Computed(Fixed(fixedVal));
      }
    }

    function Name(): string
      reads this
    {
      DisplayName(name)
    }
  }

  /** An entity or a constraint: a `_MetaBase` instance with its bound fields. */
  class MetaBase {
    const spec: Spec
    const name: string
    const group: Value
    var solvingGroup: Option<Value>
    var cache: Cache<SymExpr>
    /** The bound fields, each `_vargs` field already replaced by its parameter. */
    const attrs: map<string, Value>

    constructor (spec: Spec, name: string, g: Value, attrs: map<string, Value>)
      ensures this.spec == spec && this.name == name && group == g && this.attrs == attrs
      ensures solvingGroup == None && cache == Unset
    {
      this.spec := spec;
      this.name := name;
      group := g;
      this.attrs := attrs;
      solvingGroup := None;
      cache := Unset;
    }

    /** `_Base.reset`: record the solving group and drop the cached expression. */
    method Reset(g: Value)
      modifies this`solvingGroup, this`cache
      ensures solvingGroup == Some(g) && cache == Unset
    {
      solvingGroup := Some(g);
      cache := Unset;
    }

    /** `SymObj`: the first access stores what `getSymObj` computes; later ones return it. */
    method SymObj(computed: SymExpr) returns (e: SymExpr)
      modifies this`cache
      ensures (cache, e) == Access(old(cache), computed)
      ensures old(cache).Computed? ==> e == old(cache).value && cache == old(cache)
      ensures old(cache).Unset? ==> e == computed && cache == Computed(computed)
    {
      if cache.Unset? {
        cache := Computed(computed);
      }
      e := cache.value;
    }

    function Name(): string
      reads this
    {
      DisplayName(name)
    }
  }

  datatype LookupError = NotFound
  datatype SolveError = NoParameter

  /** The `get*` lookups: the handle itself when the container holds it. */
  function Lookup<T(==)>(s: set<T>, h: T): (r: Result<T, LookupError>)
    ensures r.Success? <==> h in s
    ensures r.Success? ==> r.value == h
  {
    if h in s then Success(h) else Failure(NotFound)
  }

  /** After `add*`, the added handle is found and every other lookup is as before. */
  lemma LookupAfterAdd<T>(s: set<T>, v: T, h: T)
    ensures Lookup(s + {v}, v) == Success(v)
    ensures h != v ==> Lookup(s + {v}, h) == Lookup(s, h)
  {
  }

  /** `p` is a parameter named `tag` for the number `v`, in group `g`. */
  predicate MadeFor(p: Param, tag: string, v: Value, g: Value)
  {
    v.Num? && p.name == tag && p.val == v.r && p.fixedVal == v.r && p.group == g
  }

  /** The parameters created for the first `|created|` `_vargs` fields, in order, all distinct. */
  ghost predicate CreatedParams(created: seq<Param>, saved: string, spec: Spec, b: Bound)
  {
    && |created| <= |spec.vargs|
    && (forall s :: 0 <= s < |created| ==>
          spec.vargs[s] in b.attrs && MadeFor(created[s], VargTag(saved, spec.className, spec.vargs[s]), b.attrs[spec.vargs[s]], b.group))
    && (forall s, u :: 0 <= s < u < |created| ==> created[s] != created[u])
  }

  /** Appending a parameter made for the next `_vargs` field keeps `CreatedParams`. */
  lemma CreatedParamsExtend(created: seq<Param>, p: Param, saved: string, spec: Spec, b: Bound)
    requires CreatedParams(created, saved, spec, b)
    requires |created| < |spec.vargs| && spec.vargs[|created|] in b.attrs
    requires MadeFor(p, VargTag(saved, spec.className, spec.vargs[|created|]), b.attrs[spec.vargs[|created|]], b.group)
    requires p !in created
    ensures CreatedParams(created + [p], saved, spec, b)
    ensures (set q | q in created + [p]) == (set q | q in created) + {p}
  {
    assert (created + [p])[..|created|] == created;
  }

  /**
   * What a factory call leaves behind, given the tag `saved` it started with:
   * the binding error; or the parameters made for the numeric prefix of the
   * `_vargs` fields and the tag of the first non-numeric one; or an object
   * named by `saved`, in the resolved group, whose `_vargs` fields are
   * replaced by the new parameters, with the tag restored.
   */
  ghost predicate Built(spec: Spec, args: seq<Value>, kargs: map<string, Value>, handle: Value,
                        saved: string, tag: string, created: seq<Param>, r: Result<MetaBase, BuildError>)
  {
    var bound := Bind(spec, args, kargs, handle);
    if bound.Failure? then
      r == Failure(bound.error) && tag == saved && created == []
    else
      var b := bound.value;
      var c := NumericPrefix(b.attrs, spec.vargs);
      && CreatedParams(created, saved, spec, b) && |created| == c
      && if c < |spec.vargs| then
           r == Failure(NotNumeric(spec.vargs[c])) && tag == VargTag(saved, spec.className, spec.vargs[c])
         else
           && r.Success? && tag == saved
           && r.value.spec == spec && r.value.name == saved && r.value.group == b.group
           && r.value.attrs == Substituted(b.attrs, spec.vargs, created, c)
  }

  /** `attrs` with each of the first `n` fields `ks[s]` rebound to the parameter `ps[s]`, in order. */
  ghost function Substituted(attrs: map<string, Value>, ks: seq<string>, ps: seq<Param>, n: nat): map<string, Value>
    requires n <= |ks| && n <= |ps|
    decreases n
  {
    if n == 0 then attrs
    else Substituted(attrs, ks, ps, n - 1)[ks[n - 1] := Ref(ps[n - 1])]
  }

  /** Only the first `n` parameters take part in substituting `n` fields. */
  lemma {:induction false} SubstitutedPrefix(attrs: map<string, Value>, ks: seq<string>, ps: seq<Param>, p: Param, n: nat)
    requires n <= |ks| && n <= |ps|
    ensures Substituted(attrs, ks, ps + [p], n) == Substituted(attrs, ks, ps, n)
    decreases n
  {
    if n > 0 {
      SubstitutedPrefix(attrs, ks, ps, p, n - 1);
      assert (ps + [p])[n - 1] == ps[n - 1];
    }
  }

  /** Substituting one more field extends the substitution so far by that field. */
  lemma SubstitutedStep(attrs: map<string, Value>, ks: seq<string>, ps: seq<Param>, p: Param)
    requires |ps| < |ks|
    ensures Substituted(attrs, ks, ps + [p], |ps| + 1) == Substituted(attrs, ks, ps, |ps|)[ks[|ps|] := Ref(p)]
  {
    SubstitutedPrefix(attrs, ks, ps, p, |ps|);
  }

  /** Substitution keeps the fields, leaves the others alone and binds each listed field to its parameter. */
  lemma {:induction false} SubstitutedFacts(attrs: map<string, Value>, ks: seq<string>, ps: seq<Param>, n: nat)
    requires n <= |ks| && n <= |ps| && Distinct(ks)
    ensures forall k :: k in Substituted(attrs, ks, ps, n) <==> k in attrs || k in ks[..n]
    ensures forall k :: k in attrs && k !in ks[..n] ==> Substituted(attrs, ks, ps, n)[k] == attrs[k]
    ensures forall s :: 0 <= s < n ==> Substituted(attrs, ks, ps, n)[ks[s]] == Ref(ps[s])
    decreases n
  {
    if n > 0 {
      var m := n - 1;
      SubstitutedFacts(attrs, ks, ps, m);
      assert ks[..n] == ks[..m] + [ks[m]];
      forall s | 0 <= s < m
        ensures Substituted(attrs, ks, ps, n)[ks[s]] == Ref(ps[s])
      {
        assert ks[s] != ks[m];
      }
    }
  }

  /** The positional loop: the first `m` arguments fill `_args`, then `_opts`, in order. */
  method BindPositional(spec: Spec, args: seq<Value>, m: nat) returns (attrs: map<string, Value>)
    requires m <= |args| && m <= Arity(spec)
    ensures attrs == Positional(Fields(spec), args[..m])
  {
    attrs := map[];
    var i := 0;
    while i < m
      invariant 0 <= i <= m
      invariant attrs == Positional(Fields(spec), args[..i])
    {
      assert args[..i + 1][..i] == args[..i];
      if i < |spec.args| {
        attrs := attrs[spec.args[i] := args[i]];
      } else {
        attrs := attrs[spec.opts[i - |spec.args|].name := args[i]];
      }
      i := i + 1;
    }
  }

  /** The options loop, consuming keywords from `kw` as it goes. */
  method FillOptionsLoop(opts: seq<Opt>, attrs0: map<string, Value>, kw0: map<string, Value>)
    returns (res: Result<(map<string, Value>, map<string, Value>), BuildError>)
    ensures res == FillOptions(opts, attrs0, kw0)
  {
    var attrs, kw := attrs0, kw0;
    assert opts[0..] == opts;
    var j := 0;
    while j < |opts|
      invariant 0 <= j <= |opts|
      invariant FillOptions(opts[j..], attrs, kw) == FillOptions(opts, attrs0, kw0)
    {
      assert opts[j..][1..] == opts[j + 1..];
      var k := opts[j].name;
      if k in kw {
        if k in attrs {
          return Failure(DuplicateKey(k));
        }
        attrs := attrs[k := kw[k]];
        kw := kw - {k};
      } else if k !in attrs {
        attrs := attrs[k := Default(opts[j])];
      }
      j := j + 1;
    }
    return Success((attrs, kw));
  }

  /** `_SystemSymPy`: the containers, the name tag and the default group. */
  class SymPySystem {
    const GroupHandle: Value := Num(1.0)
    var NameTag: string
    var Params: set<Param>
    var Entities: set<MetaBase>
    var Constraints: set<MetaBase>

    constructor ()
      ensures NameTag == "?" && Params == {} && Entities == {} && Constraints == {}
    {
      NameTag := "?";
      Params := {};
      Entities := {};
      Constraints := {};
    }

    method AddParam(v: Param) returns (r: Param)
      modifies this`Params
      ensures Params == old(Params) + {v} && r == v
    {
      Params := Params + {v};
      r := v;
    }

    method AddEntity(v: MetaBase) returns (r: MetaBase)
      modifies this`Entities
      ensures Entities == old(Entities) + {v} && r == v
    {
      Entities := Entities + {v};
      r := v;
    }

    method AddConstraint(v: MetaBase) returns (r: MetaBase)
      modifies this`Constraints
      ensures Constraints == old(Constraints) + {v} && r == v
    {
      Constraints := Constraints + {v};
      r := v;
    }

    method GetParam(h: Param) returns (r: Result<Param, LookupError>)
      ensures r == Lookup(Params, h)
    {
      if h !in Params {
        return Failure(NotFound);
      }
      return Success(h);
    }

    method GetEntity(h: MetaBase) returns (r: Result<MetaBase, LookupError>)
      ensures r == Lookup(Entities, h)
    {
      if h !in Entities {
        return Failure(NotFound);
      }
      return Success(h);
    }

    method GetConstraint(h: MetaBase) returns (r: Result<MetaBase, LookupError>)
      ensures r == Lookup(Constraints, h)
    {
      if h !in Constraints {
        return Failure(NotFound);
      }
      return Success(h);
    }

    /** `addParamV`: a new parameter named by the current tag, in `group` or else the default group. */
    method AddParamV(val: real, group: Value) returns (p: Param)
      modifies this`Params
      ensures fresh(p)
      ensures p.name == NameTag && p.val == val && p.fixedVal == val && p.form == Unset
      ensures p.group == if Truthy(group) then group else GroupHandle
      ensures Params == old(Params) + {p}
    {
      var g := group;
      if !Truthy(g) {
        g := GroupHandle;
      }
      p := new Param(NameTag, val, g);
      p := AddParam(p);
    }

    /**
     * The group step of `_MetaBase.__init__`: the `group` keyword, else a
     * surplus positional argument, else the system's own group.
     */
    method GroupStep(n: nat, args: seq<Value>, kargs: map<string, Value>) returns (gc: GroupChoice)
      ensures gc == ResolveGroup(n, args, kargs, GroupHandle)
    {
      var kw := kargs;
      var maxArgs := n;
      var g: Value;
      if "group" in kw {
        g := kw["group"];
        kw := kw - {"group"};
      } else if |args| > n {
        g := args[n];
        maxArgs := n + 1;
      } else {
        g := Num(0.0);
      }
      if !Truthy(g) {
        g := GroupHandle;
      }
      return GroupChoice(g, kw, maxArgs);
    }

    /**
     * The binding steps of `_MetaBase.__init__`: group resolution, the arity
     * checks, the positional loop and the options loop; it computes `Bind`.
     */
    method BindArguments(spec: Spec, args: seq<Value>, kargs: map<string, Value>) returns (res: Result<Bound, BuildError>)
      ensures res == Bind(spec, args, kargs, GroupHandle)
    {
      var n := Arity(spec);
      var gc := GroupStep(n, args, kargs);
      if |args| < |spec.args| {
        return Failure(NotEnoughParameters);
      }
      if |args| > gc.maxArgs {
        return Failure(TooManyParameters);
      }
      // A positional group is not a field.
      var m := Min(|args|, n);
      var attrs := BindPositional(spec, args, m);
      var filled := FillOptionsLoop(spec.opts, attrs, gc.kw);
      if filled.Failure? {
        return Failure(filled.error);
      }
      if |filled.value.1| > 0 {
        return Failure(UnknownKeys(filled.value.1.Keys));
      }
      return Success(Bound(gc.group, filled.value.0));
    }

    /**
     * One `_vargs` field: set the tag, then create the parameter for the
     * field's value unless it is not a number; `created` are the parameters
     * made for the fields before it.
     */
    method NewVargParam(tag: string, v: Value, g: Value, ghost spec: Spec, ghost b: Bound, ghost saved: string, ghost created: seq<Param>)
      returns (p: Option<Param>)
      requires CreatedParams(created, saved, spec, b)
      requires |created| < |spec.vargs| && spec.vargs[|created|] in b.attrs
      requires tag == VargTag(saved, spec.className, spec.vargs[|created|]) && v == b.attrs[spec.vargs[|created|]]
      requires g == b.group && Truthy(g)
      modifies this`NameTag, this`Params
      ensures NameTag == tag
      ensures p.Some? <==> v.Num?
      ensures p.Some? ==> && fresh(p.value) && p.value !in created
                          && CreatedParams(created + [p.value], saved, spec, b)
                          && Params == old(Params) + {p.value}
                          && (set q | q in created + [p.value]) == (set q | q in created) + {p.value}
      ensures p.None? ==> Params == old(Params)
    {
      NameTag := tag;
      var f := ToReal(v);
      if f.None? {
        return None;
      }
      var q := AddParamV(f.value, g);
      CreatedParamsExtend(created, q, saved, spec, b);
      return Some(q);
    }

    /**
     * The `_vargs` step: each listed field is replaced by a new parameter
     * named `<tag>.<ClassName>.<field>`; the tag is restored at the end, but
     * stays at the failing field's tag when a value is not a number.
     */
    method CreateVargParams(spec: Spec, b: Bound) returns (r: Result<map<string, Value>, BuildError>, ghost created: seq<Param>)
      requires forall t :: 0 <= t < |spec.vargs| ==> spec.vargs[t] in b.attrs
      requires Truthy(b.group)
      modifies this`NameTag, this`Params
      ensures fresh(created)
      ensures CreatedParams(created, old(NameTag), spec, b)
      ensures Params == old(Params) + set p | p in created
      ensures var c := NumericPrefix(b.attrs, spec.vargs);
        && |created| == c
        && (c < |spec.vargs| ==>
              r == Failure(NotNumeric(spec.vargs[c])) && NameTag == VargTag(old(NameTag), spec.className, spec.vargs[c]))
        && (c == |spec.vargs| ==> r == Success(Substituted(b.attrs, spec.vargs, created, c)) && NameTag == old(NameTag))
    {
      var saved := NameTag;
      var prefix := VargPrefix(saved, spec.className);
      var attrs := b.attrs;
      ghost var c := NumericPrefix(b.attrs, spec.vargs);
      created := [];
      var t := 0;
      while t < |spec.vargs|
        invariant 0 <= t <= c
        invariant |created| == t
        invariant fresh(created)
        invariant CreatedParams(created, saved, spec, b)
        invariant Params == old(Params) + set p | p in created
        invariant attrs == Substituted(b.attrs, spec.vargs, created, t)
      {
        var k := spec.vargs[t];
        NumericPrefixStep(b.attrs, spec.vargs, t);
        var made := NewVargParam(prefix + k, b.attrs[k], b.group, spec, b, saved, created);
        if made.None? {
          return Failure(NotNumeric(k)), created;
        }
        var p := made.value;
        attrs := attrs[k := Ref(p)];
        SubstitutedStep(b.attrs, spec.vargs, created, p);
        created := created + [p];
        t := t + 1;
      }
      NameTag := saved;
      r := Success(attrs);
    }

    /**
     * `_MetaBase.__init__`: bind the arguments, then replace each `_vargs`
     * field by a new parameter, then make the object.
     */
    method Build(spec: Spec, args: seq<Value>, kargs: map<string, Value>) returns (r: Result<MetaBase, BuildError>, ghost created: seq<Param>)
      requires WellFormed(spec)
      modifies this`NameTag, this`Params
      ensures Built(spec, args, kargs, GroupHandle, old(NameTag), NameTag, created, r)
      ensures fresh(created)
      ensures Params == old(Params) + set p | p in created
      ensures r.Success? ==> fresh(r.value) && r.value.solvingGroup == None && r.value.cache == Unset
    {
      var name := NameTag;
      created := [];
      var bound := BindArguments(spec, args, kargs);
      if bound.Failure? {
        return Failure(bound.error), created;
      }
      var b := bound.value;
      BoundKeys(spec, args, kargs, GroupHandle);
      ResolvedGroupTruthy(Arity(spec), args, kargs, GroupHandle);
      var vr;
      vr, created := CreateVargParams(spec, b);
      if vr.Failure? {
        return Failure(vr.error), created;
      }
      var o := new MetaBase(spec, name, b.group, vr.value);
      return Success(o), created;
    }

    /**
     * The `add<Name>` factories (`_Entity.make`, `_Constraint.make`): build
     * the object under the current tag and add it to the entities or the
     * constraints by its kind. A factory that fails adds no object, but the
     * `_vargs` parameters made before a non-numeric value stay in `Params`.
     */
    method Make(spec: Spec, args: seq<Value>, kargs: map<string, Value>) returns (r: Result<MetaBase, BuildError>, ghost created: seq<Param>)
      requires WellFormed(spec)
      modifies this`NameTag, this`Params, this`Entities, this`Constraints
      ensures Built(spec, args, kargs, GroupHandle, old(NameTag), NameTag, created, r)
      ensures fresh(created)
      ensures Params == old(Params) + set p | p in created
      ensures r.Success? ==> fresh(r.value) && r.value.solvingGroup == None && r.value.cache == Unset
      ensures r.Success? && spec.kind == EntityKind ==> Entities == old(Entities) + {r.value} && Constraints == old(Constraints)
      ensures r.Success? && spec.kind == ConstraintKind ==> Constraints == old(Constraints) + {r.value} && Entities == old(Entities)
      ensures r.Failure? ==> Entities == old(Entities) && Constraints == old(Constraints)
    {
      r, created := Build(spec, args, kargs);
      if r.Success? {
        var o := r.value;
        if spec.kind == EntityKind {
          o := AddEntity(o);
        } else {
          o := AddConstraint(o);
        }
      }
    }

    /**
     * The parameter loop at the start of a solve pass: every parameter is
     * reset, and the parameters of group `g` are collected with their values.
     */
    method ResetParams(g: Value) returns (free: map<Param, real>)
      modifies Params
      ensures forall p :: p in Params ==> p.form == Computed(if p.group == g then Free else Fixed(p.fixedVal))
      ensures forall p :: p in free <==> p in Params && p.group == g
      ensures forall p :: p in free ==> free[p] == p.val
    {
      free := map[];
      var todo := Params;
      while todo != {}
        invariant todo <= Params
        invariant forall p :: p in Params && p !in todo ==> p.form == Computed(if p.group == g then Free else Fixed(p.fixedVal))
        invariant forall p :: p in free <==> p in Params && p !in todo && p.group == g
        invariant forall p :: p in free ==> free[p] == p.val
        decreases |todo|
      {
        var p :| p in todo;
        p.Reset(g);
        if p.group == g {
          free := free[p := p.val];
        }
        todo := todo - {p};
      }
    }

    /** The reset loops over entities and constraints. */
    method ResetObjects(objs: set<MetaBase>, g: Value)
      modifies objs
      ensures forall o :: o in objs ==> o.solvingGroup == Some(g) && o.cache == Unset
    {
      var todo := objs;
      while todo != {}
        invariant todo <= objs
        invariant forall o :: o in objs && o !in todo ==> o.solvingGroup == Some(g) && o.cache == Unset
        decreases |todo|
      {
        var o :| o in todo;
        o.Reset(g);
        todo := todo - {o};
      }
    }

    /**
     * The partition step of `solve`: the group defaults to the system's own;
     * the parameters of the group are free, all others fixed at their value;
     * with no free parameter the pass ends before any object is reset.
     */
    method PartitionParams(group: Value) returns (r: Result<map<Param, real>, SolveError>)
      modifies Params, Entities, Constraints
      ensures var g := if Truthy(group) then group else GroupHandle;
        && (forall p :: p in Params ==> p.form == Computed(if p.group == g then Free else Fixed(p.fixedVal)))
        && (r.Success? <==> exists p :: p in Params && p.group == g)
        && (r.Failure? ==> r == Failure(NoParameter))
        && (r.Success? ==> forall p :: p in r.value <==> p in Params && p.group == g)
        && (r.Success? ==> forall p :: p in r.value ==> r.value[p] == p.val)
        && (r.Success? ==> forall o :: o in Entities + Constraints ==> o.solvingGroup == Some(g) && o.cache == Unset)
      ensures r.Failure? ==> forall o :: o in Entities + Constraints ==> unchanged(o)
    {
      var g := group;
      if !Truthy(g) {
        g := GroupHandle;
      }
      var free := ResetParams(g);
      if |free| == 0 {
        return Failure(NoParameter);
      }
      ResetObjects(Constraints, g);
      ResetObjects(Entities, g);
      return Success(free);
    }
  }
}
