/**
 * Argument binding of the entity/constraint factories (`_MetaBase.__init__`),
 * as pure functions over the positional argument list and the keyword
 * dictionary. `Bind` is the binder the system's `Build` method implements;
 * `BindAsWritten` is the same pipeline exactly as the source writes it, kept
 * to exhibit where the two differ.
 */
module Binding {

  import opened Wrappers
  import opened Values

  datatype Kind = EntityKind | ConstraintKind

  /** An `_opts` entry: a bare name (default 0) or a `(name, default)` tuple. */
  datatype Opt = Plain(name: string) | WithDefault(name: string, default: Value)

  function Default(o: Opt): Value
  {
    if o.Plain? then Num(0.0) else o.default
  }

  /** The class attributes that drive the binder: `_args`, `_opts` and `_vargs`. */
  datatype Spec = Spec(className: string, kind: Kind, args: seq<string>, opts: seq<Opt>, vargs: seq<string>)

  function OptNames(opts: seq<Opt>): (r: seq<string>)
    ensures |r| == |opts|
    ensures forall j :: 0 <= j < |opts| ==> r[j] == opts[j].name
  {
    seq(|opts|, j requires 0 <= j < |opts| => opts[j].name)
  }

  /** The fields positional arguments bind to, in order: required ones, then options. */
  function Fields(spec: Spec): seq<string>
  {
    spec.args + OptNames(spec.opts)
  }

  /** `n = len(_args) + len(_opts)`. */
  function Arity(spec: Spec): nat
  {
    |spec.args| + |spec.opts|
  }

  predicate Distinct(s: seq<string>)
  {
    forall i, j :: 0 <= i < j < |s| ==> s[i] != s[j]
  }

  /** The attributes `_Base.__init__` sets before any field is bound. */
  const BaseAttributes: set<string> := {"group", "solvingGroup", "_symobj", "_name"}

  /**
   * What every factory class of the source satisfies: field names are
   * distinct and do not collide with the base attributes, and each `_vargs`
   * name is a field, named once.
   */
  predicate WellFormed(spec: Spec)
  {
    && Distinct(Fields(spec))
    && (forall f :: f in Fields(spec) ==> f !in BaseAttributes)
    && Distinct(spec.vargs)
    && (forall k :: k in spec.vargs ==> k in Fields(spec))
  }

  /** Why a factory call raises. */
  datatype BuildError =
    | NotEnoughParameters         // ValueError: fewer positional arguments than `_args`
    | TooManyParameters           // ValueError: more positional arguments than allowed
    | DuplicateKey(key: string)   // KeyError: an option given positionally and by keyword
    | UnknownKeys(keys: set<string>) // KeyError: keywords that name no option
    | NotNumeric(field: string)   // a `_vargs` field whose value is not a number
    | IndexOutOfRange             // IndexError (only as written)
    | AttributeMissing            // AttributeError while formatting a message (only as written)

  /** The result of binding before `_vargs` processing: the solving group and the attributes. */
  datatype Bound = Bound(group: Value, attrs: map<string, Value>)

  /** Where the group comes from: the keyword, then a trailing positional argument, then 0. */
  function RequestedGroup(n: nat, args: seq<Value>, kargs: map<string, Value>): Value
  {
    if "group" in kargs then kargs["group"]
    else if |args| > n then args[n]
    else Num(0.0)
  }

  datatype GroupChoice = GroupChoice(group: Value, kw: map<string, Value>, maxArgs: nat)

  /**
   * Group resolution: the requested group, or the system's `GroupHandle` when
   * it is falsy; the `group` keyword is removed; one extra positional argument
   * is allowed only when it carried the group.
   */
  function ResolveGroup(n: nat, args: seq<Value>, kargs: map<string, Value>, handle: Value): (r: GroupChoice)
    ensures "group" !in r.kw
    ensures forall k :: k in r.kw <==> k in kargs && k != "group"
    ensures forall k :: k in r.kw ==> r.kw[k] == kargs[k]
    ensures r.maxArgs == if "group" !in kargs && |args| > n then n + 1 else n
    ensures Truthy(RequestedGroup(n, args, kargs)) ==> r.group == RequestedGroup(n, args, kargs)
    ensures !Truthy(RequestedGroup(n, args, kargs)) ==> r.group == handle
  {
    var g := RequestedGroup(n, args, kargs);
    GroupChoice(if Truthy(g) then g else handle,
                kargs - {"group"},
                if "group" !in kargs && |args| > n then n + 1 else n)
  }

  /** A truthy system handle guarantees a truthy group, whatever the caller passed. */
  lemma ResolvedGroupTruthy(n: nat, args: seq<Value>, kargs: map<string, Value>, handle: Value)
    requires Truthy(handle)
    ensures Truthy(ResolveGroup(n, args, kargs, handle).group)
  {
  }

  /** The keyword takes precedence: a positional surplus is then never read as the group. */
  lemma GroupKeywordWins(n: nat, args: seq<Value>, kargs: map<string, Value>, handle: Value)
    requires "group" in kargs && Truthy(kargs["group"])
    ensures ResolveGroup(n, args, kargs, handle).group == kargs["group"]
    ensures ResolveGroup(n, args, kargs, handle).maxArgs == n
  {
  }

  /** The `setattr` loop over positional arguments: `vals[i]` bound to `fields[i]`. */
  function Positional(fields: seq<string>, vals: seq<Value>): map<string, Value>
    requires |vals| <= |fields|
    decreases |vals|
  {
    if vals == [] then map[]
    else Positional(fields, vals[..|vals| - 1])[fields[|vals| - 1] := vals[|vals| - 1]]
  }

  function Min(a: nat, b: nat): nat
  {
    if a < b then a else b
  }

  /**
   * The options loop, one option at a time: a keyword value is taken (and
   * consumed) unless the option was already bound positionally, which is a
   * duplicate; an option bound positionally keeps its value; any other option
   * gets its default.
   */
  function FillOptions(opts: seq<Opt>, attrs: map<string, Value>, kw: map<string, Value>)
    : Result<(map<string, Value>, map<string, Value>), BuildError>
    decreases |opts|
  {
    if opts == [] then Success((attrs, kw))
    else
      var k := opts[0].name;
      if k in kw then
        if k in attrs then Failure(DuplicateKey(k))
        else FillOptions(opts[1..], attrs[k := kw[k]], kw - {k})
      else
        FillOptions(opts[1..], if k in attrs then attrs else attrs[k := Default(opts[0])], kw)
  }

  /** The whole binder up to (not including) the `_vargs` step. */
  function Bind(spec: Spec, args: seq<Value>, kargs: map<string, Value>, handle: Value): Result<Bound, BuildError>
  {
    var n := Arity(spec);
    var gc := ResolveGroup(n, args, kargs, handle);
    if |args| < |spec.args| then Failure(NotEnoughParameters)
    else if |args| > gc.maxArgs then Failure(TooManyParameters)
    else
      var filled := FillOptions(spec.opts, Positional(Fields(spec), args[..Min(|args|, n)]), gc.kw);
      if filled.Failure? then Failure(filled.error)
      else if |filled.value.1| > 0 then Failure(UnknownKeys(filled.value.1.Keys))
      else Success(Bound(gc.group, filled.value.0))
  }

  // ---------------------------------------------------------------------------
  // Facts about the pieces

  lemma {:induction false} PositionalFacts(fields: seq<string>, vals: seq<Value>)
    requires |vals| <= |fields| && Distinct(fields)
    ensures forall f :: f in Positional(fields, vals) <==> f in fields[..|vals|]
    ensures forall i :: 0 <= i < |vals| ==> Positional(fields, vals)[fields[i]] == vals[i]
    decreases |vals|
  {
    if vals != [] {
      var m := |vals| - 1;
      PositionalFacts(fields, vals[..m]);
      assert vals[..m][..] == vals[..m];
      assert fields[..|vals|] == fields[..m] + [fields[m]];
      forall i | 0 <= i < |vals|
        ensures Positional(fields, vals)[fields[i]] == vals[i]
      {
        if i < m {
          assert fields[i] != fields[m];
          assert vals[..m][i] == vals[i];
        }
      }
    }
  }

  /** A field's position tells whether a prefix of the fields contains it. */
  lemma InPrefix(fields: seq<string>, idx: nat, m: nat)
    requires Distinct(fields) && idx < |fields| && m <= |fields|
    ensures fields[idx] in fields[..m] <==> idx < m
  {
    if fields[idx] in fields[..m] {
      var i :| 0 <= i < m && fields[..m][i] == fields[idx];
      assert fields[i] == fields[idx];
    }
  }

  ghost predicate NoDuplicateKeyword(opts: seq<Opt>, attrs: map<string, Value>, kw: map<string, Value>)
  {
    forall j :: 0 <= j < |opts| && opts[j].name in kw ==> opts[j].name !in attrs
  }

  /** The options after the first: distinct, without the first name, and together with it all the names. */
  lemma OptNamesTail(opts: seq<Opt>)
    requires opts != []
    ensures forall x :: x in OptNames(opts) <==> x == opts[0].name || x in OptNames(opts[1..])
    ensures forall j :: 0 <= j < |opts| - 1 ==> opts[1..][j] == opts[j + 1]
    ensures Distinct(OptNames(opts)) ==> Distinct(OptNames(opts[1..])) && opts[0].name !in OptNames(opts[1..])
  {
    var rest := opts[1..];
    assert OptNames(rest) == OptNames(opts)[1..];
    forall x ensures x in OptNames(opts) <==> x == opts[0].name || x in OptNames(rest) {
      if x in OptNames(opts) {
        var j :| 0 <= j < |opts| && OptNames(opts)[j] == x;
        if j > 0 { assert OptNames(rest)[j - 1] == x; }
      }
    }
  }

  /** The options loop fails only on a duplicate, and exactly when there is one. */
  lemma {:induction false} FillOptionsOutcome(opts: seq<Opt>, attrs: map<string, Value>, kw: map<string, Value>)
    requires Distinct(OptNames(opts))
    ensures var r := FillOptions(opts, attrs, kw);
      && (r.Success? <==> NoDuplicateKeyword(opts, attrs, kw))
      && (r.Failure? ==> r.error.DuplicateKey? && r.error.key in kw && r.error.key in attrs
                         && r.error.key in OptNames(opts))
    decreases |opts|
  {
    if opts != [] {
      var k := opts[0].name;
      OptNamesTail(opts);
      if k in kw {
        if k !in attrs {
          FillOptionsOutcome(opts[1..], attrs[k := kw[k]], kw - {k});
          assert NoDuplicateKeyword(opts[1..], attrs[k := kw[k]], kw - {k}) <==> NoDuplicateKeyword(opts, attrs, kw) by {
            assert forall j :: 1 <= j < |opts| ==> opts[j].name in OptNames(opts[1..]);
          }
        }
      } else {
        var attrs' := if k in attrs then attrs else attrs[k := Default(opts[0])];
        FillOptionsOutcome(opts[1..], attrs', kw);
        assert NoDuplicateKeyword(opts[1..], attrs', kw) <==> NoDuplicateKeyword(opts, attrs, kw) by {
          assert forall j :: 1 <= j < |opts| ==> opts[j].name in OptNames(opts[1..]);
        }
      }
    }
  }

  /** The keywords left over are those naming no option, with their values. */
  lemma {:induction false} FillOptionsLeftover(opts: seq<Opt>, attrs: map<string, Value>, kw: map<string, Value>)
    ensures var r := FillOptions(opts, attrs, kw);
      && (r.Success? ==> forall k :: k in r.value.1 <==> k in kw && k !in OptNames(opts))
      && (r.Success? ==> forall k :: k in r.value.1 ==> r.value.1[k] == kw[k])
    decreases |opts|
  {
    if opts != [] {
      var k := opts[0].name;
      OptNamesTail(opts);
      if k in kw {
        if k !in attrs {
          FillOptionsLeftover(opts[1..], attrs[k := kw[k]], kw - {k});
        }
      } else {
        FillOptionsLeftover(opts[1..], if k in attrs then attrs else attrs[k := Default(opts[0])], kw);
      }
    }
  }

  /** The options loop only adds option names, and never changes a field already bound. */
  lemma {:induction false} FillOptionsKeeps(opts: seq<Opt>, attrs: map<string, Value>, kw: map<string, Value>)
    ensures var r := FillOptions(opts, attrs, kw);
      && (r.Success? ==> forall k :: k in r.value.0 <==> k in attrs || k in OptNames(opts))
      && (r.Success? ==> forall k :: k in attrs ==> r.value.0[k] == attrs[k])
    decreases |opts|
  {
    if opts != [] {
      var k := opts[0].name;
      OptNamesTail(opts);
      if k in kw {
        if k !in attrs {
          FillOptionsKeeps(opts[1..], attrs[k := kw[k]], kw - {k});
        }
      } else {
        FillOptionsKeeps(opts[1..], if k in attrs then attrs else attrs[k := Default(opts[0])], kw);
      }
    }
  }

  /** An option not bound positionally ends up with its keyword value, or else its default. */
  lemma {:induction false} FillOptionsValues(opts: seq<Opt>, attrs: map<string, Value>, kw: map<string, Value>)
    requires Distinct(OptNames(opts))
    ensures var r := FillOptions(opts, attrs, kw);
      r.Success? ==> forall j :: 0 <= j < |opts| && opts[j].name !in attrs ==>
        opts[j].name in r.value.0 &&
        r.value.0[opts[j].name] == if opts[j].name in kw then kw[opts[j].name] else Default(opts[j])
    decreases |opts|
  {
    if opts != [] {
      var k := opts[0].name;
      OptNamesTail(opts);
      var attrs', kw' := if k in kw then attrs[k := kw[k]] else attrs[k := Default(opts[0])],
                         if k in kw then kw - {k} else kw;
      if k !in attrs {
        FillOptionsValues(opts[1..], attrs', kw');
        FillOptionsKeeps(opts[1..], attrs', kw');
        assert forall j :: 1 <= j < |opts| ==> opts[j].name in OptNames(opts[1..]);
      } else if k !in kw {
        FillOptionsValues(opts[1..], attrs, kw);
        assert forall j :: 1 <= j < |opts| ==> opts[j].name in OptNames(opts[1..]);
      }
    }
  }

  /** The option names are distinct when all fields are. */
  lemma OptNamesDistinct(spec: Spec)
    requires Distinct(Fields(spec))
    ensures Distinct(OptNames(spec.opts))
    ensures forall j :: 0 <= j < |spec.opts| ==> Fields(spec)[|spec.args| + j] == spec.opts[j].name
  {
    var fields := Fields(spec);
    assert forall i, j :: 0 <= i < j < |spec.opts| ==>
      OptNames(spec.opts)[i] == fields[|spec.args| + i] && OptNames(spec.opts)[j] == fields[|spec.args| + j];
  }

  /** The unfolding of `Bind` in terms of its pieces, under the arity checks. */
  lemma BindUnfold(spec: Spec, args: seq<Value>, kargs: map<string, Value>, handle: Value)
    requires WellFormed(spec)
    requires |spec.args| <= |args| <= ResolveGroup(Arity(spec), args, kargs, handle).maxArgs
    ensures var m := Min(|args|, Arity(spec));
      var pos := Positional(Fields(spec), args[..m]);
      && (forall f :: f in pos <==> f in Fields(spec)[..m])
      && (forall i :: 0 <= i < m ==> pos[Fields(spec)[i]] == args[i])
      && (forall j :: 0 <= j < |spec.opts| ==> (spec.opts[j].name in pos <==> |spec.args| + j < |args|))
      && Distinct(OptNames(spec.opts))
  {
    var fields := Fields(spec);
    var m := Min(|args|, Arity(spec));
    PositionalFacts(fields, args[..m]);
    OptNamesDistinct(spec);
    forall j | 0 <= j < |spec.opts|
      ensures spec.opts[j].name in Positional(fields, args[..m]) <==> |spec.args| + j < |args|
    {
      InPrefix(fields, |spec.args| + j, m);
    }
  }

  /** All the facts about the options loop, for one call of `Bind`. */
  lemma FillOptionsFacts(opts: seq<Opt>, attrs: map<string, Value>, kw: map<string, Value>)
    requires Distinct(OptNames(opts))
    ensures var r := FillOptions(opts, attrs, kw);
      && (r.Success? <==> NoDuplicateKeyword(opts, attrs, kw))
      && (r.Failure? ==> r.error.DuplicateKey? && r.error.key in kw && r.error.key in attrs
                         && r.error.key in OptNames(opts))
      && (r.Success? ==> forall k :: k in r.value.1 <==> k in kw && k !in OptNames(opts))
      && (r.Success? ==> forall k :: k in r.value.0 <==> k in attrs || k in OptNames(opts))
      && (r.Success? ==> forall k :: k in attrs ==> r.value.0[k] == attrs[k])
      && (r.Success? ==> forall j :: 0 <= j < |opts| && opts[j].name !in attrs ==>
            r.value.0[opts[j].name] == if opts[j].name in kw then kw[opts[j].name] else Default(opts[j]))
  {
    FillOptionsOutcome(opts, attrs, kw);
    FillOptionsLeftover(opts, attrs, kw);
    FillOptionsKeeps(opts, attrs, kw);
    FillOptionsValues(opts, attrs, kw);
  }

  // ---------------------------------------------------------------------------
  // What the binder promises

  /** The two ValueErrors: too few arguments, and more than `n` (or `n+1` with a positional group). */
  lemma ArityErrors(spec: Spec, args: seq<Value>, kargs: map<string, Value>, handle: Value)
    requires WellFormed(spec)
    ensures Bind(spec, args, kargs, handle) == Failure(NotEnoughParameters) <==> |args| < |spec.args|
    ensures Bind(spec, args, kargs, handle) == Failure(TooManyParameters)
            <==> |spec.args| <= |args| && |args| > ResolveGroup(Arity(spec), args, kargs, handle).maxArgs
  {
    var gc := ResolveGroup(Arity(spec), args, kargs, handle);
    if |spec.args| <= |args| <= gc.maxArgs {
      BindUnfold(spec, args, kargs, handle);
      var m := Min(|args|, Arity(spec));
      FillOptionsFacts(spec.opts, Positional(Fields(spec), args[..m]), gc.kw);
    }
  }

  /** No option may be given both positionally and by keyword. */
  ghost predicate NoDuplicates(spec: Spec, args: seq<Value>, kw: map<string, Value>)
  {
    forall j :: 0 <= j < |spec.opts| && spec.opts[j].name in kw ==> |spec.args| + j >= |args|
  }

  /** Every keyword left after the group was taken names an option. */
  ghost predicate NoUnknown(spec: Spec, kw: map<string, Value>)
  {
    forall k :: k in kw ==> k in OptNames(spec.opts)
  }

  /** On the positional bindings, "no keyword names a bound option" is `NoDuplicates`. */
  lemma DuplicatesMatch(spec: Spec, args: seq<Value>, kargs: map<string, Value>, handle: Value)
    requires WellFormed(spec)
    requires |spec.args| <= |args| <= ResolveGroup(Arity(spec), args, kargs, handle).maxArgs
    ensures var gc := ResolveGroup(Arity(spec), args, kargs, handle);
      NoDuplicateKeyword(spec.opts, Positional(Fields(spec), args[..Min(|args|, Arity(spec))]), gc.kw)
      <==> NoDuplicates(spec, args, gc.kw)
  {
    BindUnfold(spec, args, kargs, handle);
  }

  /** After a successful options loop, keywords are left over exactly when one names no option. */
  lemma LeftoverMatch(spec: Spec, attrs: map<string, Value>, kw: map<string, Value>)
    requires Distinct(OptNames(spec.opts))
    requires FillOptions(spec.opts, attrs, kw).Success?
    ensures |FillOptions(spec.opts, attrs, kw).value.1| > 0 <==> !NoUnknown(spec, kw)
  {
    var r := FillOptions(spec.opts, attrs, kw);
    FillOptionsLeftover(spec.opts, attrs, kw);
    if !NoUnknown(spec, kw) {
      var k :| k in kw && k !in OptNames(spec.opts);
      assert k in r.value.1;
    }
    if |r.value.1| > 0 {
      var k :| k in r.value.1;
    }
  }

  /** The binder succeeds exactly when the arity is right, no option is bound twice and no keyword is unknown. */
  lemma BindSucceedsIff(spec: Spec, args: seq<Value>, kargs: map<string, Value>, handle: Value)
    requires WellFormed(spec)
    ensures var gc := ResolveGroup(Arity(spec), args, kargs, handle);
      Bind(spec, args, kargs, handle).Success?
      <==> |spec.args| <= |args| <= gc.maxArgs && NoDuplicates(spec, args, gc.kw) && NoUnknown(spec, gc.kw)
  {
    var gc := ResolveGroup(Arity(spec), args, kargs, handle);
    if |spec.args| <= |args| <= gc.maxArgs {
      var pos := Positional(Fields(spec), args[..Min(|args|, Arity(spec))]);
      OptNamesDistinct(spec);
      DuplicatesMatch(spec, args, kargs, handle);
      FillOptionsOutcome(spec.opts, pos, gc.kw);
      if FillOptions(spec.opts, pos, gc.kw).Success? {
        LeftoverMatch(spec, pos, gc.kw);
      }
    }
  }

  /** A DuplicateKey error names a keyword that some positional argument already bound. */
  lemma DuplicateKeyError(spec: Spec, args: seq<Value>, kargs: map<string, Value>, handle: Value, k: string)
    requires WellFormed(spec)
    requires Bind(spec, args, kargs, handle) == Failure(DuplicateKey(k))
    ensures k in kargs && k != "group"
    ensures exists j :: 0 <= j < |spec.opts| && spec.opts[j].name == k && |spec.args| + j < |args|
  {
    var gc := ResolveGroup(Arity(spec), args, kargs, handle);
    BindUnfold(spec, args, kargs, handle);
    var m := Min(|args|, Arity(spec));
    var pos := Positional(Fields(spec), args[..m]);
    FillOptionsFacts(spec.opts, pos, gc.kw);
    var j :| 0 <= j < |spec.opts| && OptNames(spec.opts)[j] == k;
    assert spec.opts[j].name == k;
  }

  /** An UnknownKeys error reports exactly the keywords that name no option, and never none. */
  lemma UnknownKeysError(spec: Spec, args: seq<Value>, kargs: map<string, Value>, handle: Value, keys: set<string>)
    requires WellFormed(spec)
    requires Bind(spec, args, kargs, handle) == Failure(UnknownKeys(keys))
    ensures keys != {}
    ensures forall k :: k in keys <==> k in kargs && k != "group" && k !in OptNames(spec.opts)
  {
    var gc := ResolveGroup(Arity(spec), args, kargs, handle);
    BindUnfold(spec, args, kargs, handle);
    var m := Min(|args|, Arity(spec));
    var pos := Positional(Fields(spec), args[..m]);
    FillOptionsFacts(spec.opts, pos, gc.kw);
  }

  /** Every field is either among the first `m` fields or an option (when `m` covers the required ones). */
  lemma FieldsCover(spec: Spec, m: nat)
    requires |spec.args| <= m <= Arity(spec)
    ensures forall f :: f in Fields(spec) <==> f in Fields(spec)[..m] || f in OptNames(spec.opts)
  {
    var fields := Fields(spec);
    forall f ensures f in fields <==> f in fields[..m] || f in OptNames(spec.opts) {
      if f in fields && f !in fields[..m] {
        var i :| 0 <= i < |fields| && fields[i] == f;
        assert f == OptNames(spec.opts)[i - |spec.args|];
      }
      if f in OptNames(spec.opts) {
        var j :| 0 <= j < |spec.opts| && OptNames(spec.opts)[j] == f;
        assert fields[|spec.args| + j] == f;
      }
    }
  }

  /** After a successful bind the group is the resolved one and the attributes are exactly the fields. */
  lemma BoundKeys(spec: Spec, args: seq<Value>, kargs: map<string, Value>, handle: Value)
    requires WellFormed(spec)
    requires Bind(spec, args, kargs, handle).Success?
    ensures var b := Bind(spec, args, kargs, handle).value;
      && b.group == ResolveGroup(Arity(spec), args, kargs, handle).group
      && (forall f :: f in b.attrs <==> f in Fields(spec))
  {
    var gc := ResolveGroup(Arity(spec), args, kargs, handle);
    BindUnfold(spec, args, kargs, handle);
    var m := Min(|args|, Arity(spec));
    FillOptionsKeeps(spec.opts, Positional(Fields(spec), args[..m]), gc.kw);
    FieldsCover(spec, m);
  }

  /** After a successful bind the positional arguments fill the first fields, in order. */
  lemma BoundPositional(spec: Spec, args: seq<Value>, kargs: map<string, Value>, handle: Value)
    requires WellFormed(spec)
    requires Bind(spec, args, kargs, handle).Success?
    ensures var b := Bind(spec, args, kargs, handle).value;
      forall i :: 0 <= i < |args| && i < Arity(spec) ==>
        Fields(spec)[i] in b.attrs && b.attrs[Fields(spec)[i]] == args[i]
  {
    var gc := ResolveGroup(Arity(spec), args, kargs, handle);
    BindUnfold(spec, args, kargs, handle);
    var m := Min(|args|, Arity(spec));
    FillOptionsKeeps(spec.opts, Positional(Fields(spec), args[..m]), gc.kw);
  }

  /** After a successful bind each option not given positionally holds its keyword value, or else its default. */
  lemma BoundOptions(spec: Spec, args: seq<Value>, kargs: map<string, Value>, handle: Value)
    requires WellFormed(spec)
    requires Bind(spec, args, kargs, handle).Success?
    ensures var b := Bind(spec, args, kargs, handle).value;
      forall j :: 0 <= j < |spec.opts| && |spec.args| + j >= |args| ==>
        && spec.opts[j].name in b.attrs
        && b.attrs[spec.opts[j].name] == if spec.opts[j].name in kargs then kargs[spec.opts[j].name]
                                         else Default(spec.opts[j])
  {
    var gc := ResolveGroup(Arity(spec), args, kargs, handle);
    BindUnfold(spec, args, kargs, handle);
    var m := Min(|args|, Arity(spec));
    FillOptionsValues(spec.opts, Positional(Fields(spec), args[..m]), gc.kw);
    OptNamesDistinct(spec);
    forall j | 0 <= j < |spec.opts|
      ensures spec.opts[j].name != "group"
    {
      assert Fields(spec)[|spec.args| + j] in Fields(spec);
    }
  }

  /** The two halves together. */
  lemma BoundAttributes(spec: Spec, args: seq<Value>, kargs: map<string, Value>, handle: Value)
    requires WellFormed(spec)
    requires Bind(spec, args, kargs, handle).Success?
    ensures var b := Bind(spec, args, kargs, handle).value;
      && b.group == ResolveGroup(Arity(spec), args, kargs, handle).group
      && (forall f :: f in b.attrs <==> f in Fields(spec))
      && (forall i :: 0 <= i < |args| && i < Arity(spec) ==> b.attrs[Fields(spec)[i]] == args[i])
      && (forall j :: 0 <= j < |spec.opts| && |spec.args| + j >= |args| ==>
            b.attrs[spec.opts[j].name] == if spec.opts[j].name in kargs then kargs[spec.opts[j].name]
                                          else Default(spec.opts[j]))
  {
    BoundKeys(spec, args, kargs, handle);
    BoundPositional(spec, args, kargs, handle);
    BoundOptions(spec, args, kargs, handle);
  }

  /** A group passed as the argument after all fields is accepted, and no field receives it. */
  lemma PositionalGroupAccepted(spec: Spec, args: seq<Value>, handle: Value)
    requires WellFormed(spec)
    requires |args| == Arity(spec) + 1
    ensures Bind(spec, args, map[], handle).Success?
    ensures Bind(spec, args, map[], handle).value.group
            == if Truthy(args[Arity(spec)]) then args[Arity(spec)] else handle
    ensures forall i :: 0 <= i < Arity(spec) ==>
      Fields(spec)[i] in Bind(spec, args, map[], handle).value.attrs &&
      Bind(spec, args, map[], handle).value.attrs[Fields(spec)[i]] == args[i]
  {
    BindSucceedsIff(spec, args, map[], handle);
    BoundAttributes(spec, args, map[], handle);
  }

  // ---------------------------------------------------------------------------
  // The binder as the source writes it

  /**
   * The exception that escapes when an error message is built with
   * `str(self)`: the object's repr reads every field, so it raises
   * AttributeError unless all fields are bound.
   */
  function Raise(e: BuildError, attrs: map<string, Value>, fields: seq<string>): (r: BuildError)
    ensures (forall f :: f in fields ==> f in attrs) ==> r == e
    ensures (exists f :: f in fields && f !in attrs) ==> r == AttributeMissing
  {
    if forall f :: f in fields ==> f in attrs then e else AttributeMissing
  }

  /** The options loop as written: the option is set to its keyword value or default even when bound positionally. */
  function FillOptionsAsWritten(opts: seq<Opt>, attrs: map<string, Value>, kw: map<string, Value>, fields: seq<string>)
    : Result<(map<string, Value>, map<string, Value>), BuildError>
    decreases |opts|
  {
    if opts == [] then Success((attrs, kw))
    else
      var k := opts[0].name;
      if k in kw then
        if k in attrs then Failure(Raise(DuplicateKey(k), attrs, fields))
        else FillOptionsAsWritten(opts[1..], attrs[k := kw[k]], kw - {k}, fields)
      else
        FillOptionsAsWritten(opts[1..], attrs[k := Default(opts[0])], kw, fields)
  }

  /**
   * `_MetaBase.__init__` as written: every positional argument is bound by
   * index into `_args` then `_opts`, so a positional group (index `n`) reads
   * past the end of `_opts`; the messages of the ValueErrors and KeyErrors are
   * built from `str(self)`.
   */
  function BindAsWritten(spec: Spec, args: seq<Value>, kargs: map<string, Value>, handle: Value): Result<Bound, BuildError>
  {
    var n := Arity(spec);
    var gc := ResolveGroup(n, args, kargs, handle);
    var fields := Fields(spec);
    if |args| < |spec.args| then Failure(Raise(NotEnoughParameters, map[], fields))
    else if |args| > gc.maxArgs then Failure(Raise(TooManyParameters, map[], fields))
    else if |args| > n then Failure(IndexOutOfRange)
    else
      var filled := FillOptionsAsWritten(spec.opts, Positional(fields, args), gc.kw, fields);
      if filled.Failure? then Failure(filled.error)
      else if |filled.value.1| > 0 then Failure(Raise(UnknownKeys(filled.value.1.Keys), filled.value.0, fields))
      else Success(Bound(gc.group, filled.value.0))
  }

  /** With no option bound beforehand, the written options loop is the intended one. */
  lemma {:induction false} FillOptionsAgree(opts: seq<Opt>, attrs: map<string, Value>, kw: map<string, Value>, fields: seq<string>)
    requires Distinct(OptNames(opts))
    requires forall j :: 0 <= j < |opts| ==> opts[j].name !in attrs
    ensures FillOptionsAsWritten(opts, attrs, kw, fields) == FillOptions(opts, attrs, kw)
    decreases |opts|
  {
    if opts != [] {
      var k := opts[0].name;
      OptNamesTail(opts);
      assert forall j :: 1 <= j < |opts| ==> opts[j].name in OptNames(opts[1..]);
      if k in kw {
        FillOptionsAgree(opts[1..], attrs[k := kw[k]], kw - {k}, fields);
      } else {
        FillOptionsAgree(opts[1..], attrs[k := Default(opts[0])], kw, fields);
      }
    }
  }

  /**
   * When exactly the required arguments are passed positionally and options
   * only by keyword, the binder as written and the intended one agree,
   * error cases included.
   */
  lemma AgreeWithoutPositionalOptions(spec: Spec, args: seq<Value>, kargs: map<string, Value>, handle: Value)
    requires WellFormed(spec)
    requires |args| == |spec.args|
    ensures BindAsWritten(spec, args, kargs, handle) == Bind(spec, args, kargs, handle)
  {
    var gc := ResolveGroup(Arity(spec), args, kargs, handle);
    BindUnfold(spec, args, kargs, handle);
    assert args[..Min(|args|, Arity(spec))] == args;
    var pos := Positional(Fields(spec), args);
    FillOptionsAgree(spec.opts, pos, gc.kw, Fields(spec));
    FillOptionsKeeps(spec.opts, pos, gc.kw);
    FieldsCover(spec, |args|);
    assert Fields(spec)[..|args|] == spec.args;
  }

  /** The written options loop leaves each option at its keyword value or its default. */
  lemma {:induction false} FillOptionsAsWrittenValues(opts: seq<Opt>, attrs: map<string, Value>, kw: map<string, Value>, fields: seq<string>)
    requires Distinct(OptNames(opts))
    ensures var r := FillOptionsAsWritten(opts, attrs, kw, fields);
      r.Success? ==> forall j :: 0 <= j < |opts| ==>
        opts[j].name in r.value.0 &&
        r.value.0[opts[j].name] == if opts[j].name in kw then kw[opts[j].name] else Default(opts[j])
    decreases |opts|
  {
    if opts != [] {
      var k := opts[0].name;
      OptNamesTail(opts);
      assert forall j :: 1 <= j < |opts| ==> opts[j].name in OptNames(opts[1..]);
      var attrs', kw' := if k in kw then attrs[k := kw[k]] else attrs[k := Default(opts[0])],
                         if k in kw then kw - {k} else kw;
      if !(k in kw && k in attrs) {
        var r := FillOptionsAsWritten(opts[1..], attrs', kw', fields);
        assert FillOptionsAsWritten(opts, attrs, kw, fields) == r;
        FillOptionsAsWrittenValues(opts[1..], attrs', kw', fields);
        FillOptionsAsWrittenKeeps(opts[1..], attrs', kw', fields);
        if r.Success? {
          forall j | 0 <= j < |opts|
            ensures opts[j].name in r.value.0
            ensures r.value.0[opts[j].name] == if opts[j].name in kw then kw[opts[j].name] else Default(opts[j])
          {
            if j > 0 {
              assert opts[j] == opts[1..][j - 1];
              assert opts[j].name != k;
            }
          }
        }
      }
    }
  }

  lemma {:induction false} FillOptionsAsWrittenKeeps(opts: seq<Opt>, attrs: map<string, Value>, kw: map<string, Value>, fields: seq<string>)
    requires Distinct(OptNames(opts))
    ensures var r := FillOptionsAsWritten(opts, attrs, kw, fields);
      r.Success? ==> forall k :: k in attrs && k !in OptNames(opts) ==> k in r.value.0 && r.value.0[k] == attrs[k]
    ensures var r := FillOptionsAsWritten(opts, attrs, kw, fields);
      r.Success? ==> forall k :: k in r.value.0 <==> k in attrs || k in OptNames(opts)
    decreases |opts|
  {
    if opts != [] {
      var k := opts[0].name;
      OptNamesTail(opts);
      if k in kw {
        if k !in attrs {
          FillOptionsAsWrittenKeeps(opts[1..], attrs[k := kw[k]], kw - {k}, fields);
        }
      } else {
        FillOptionsAsWrittenKeeps(opts[1..], attrs[k := Default(opts[0])], kw, fields);
      }
    }
  }

  /**
   * Finding: a group passed positionally (one argument past the fields) is
   * accepted by the arity check but then indexes past the end of `_opts`.
   */
  lemma PositionalGroupRaises(spec: Spec, args: seq<Value>, kargs: map<string, Value>, handle: Value)
    requires |args| == Arity(spec) + 1 && "group" !in kargs
    ensures BindAsWritten(spec, args, kargs, handle) == Failure(IndexOutOfRange)
  {
  }

  /**
   * Finding: after a successful bind as written, every option holds its
   * keyword value or its default, so a value passed positionally for an
   * option is lost.
   */
  lemma PositionalOptionsDiscarded(spec: Spec, args: seq<Value>, kargs: map<string, Value>, handle: Value)
    requires WellFormed(spec)
    requires BindAsWritten(spec, args, kargs, handle).Success?
    ensures var b := BindAsWritten(spec, args, kargs, handle).value;
      forall j :: 0 <= j < |spec.opts| ==>
        && spec.opts[j].name in b.attrs
        && b.attrs[spec.opts[j].name] == if spec.opts[j].name in kargs then kargs[spec.opts[j].name]
                                         else Default(spec.opts[j])
  {
    var gc := ResolveGroup(Arity(spec), args, kargs, handle);
    OptNamesDistinct(spec);
    FillOptionsAsWrittenValues(spec.opts, Positional(Fields(spec), args), gc.kw, Fields(spec));
    forall j | 0 <= j < |spec.opts|
      ensures spec.opts[j].name != "group"
    {
      assert Fields(spec)[|spec.args| + j] in Fields(spec);
    }
  }

  /**
   * Finding: both ValueErrors are raised before any field is bound, so
   * formatting their message with `str(self)` raises AttributeError instead.
   */
  lemma ArityErrorsSurfaceAsAttributeError(spec: Spec, args: seq<Value>, kargs: map<string, Value>, handle: Value)
    requires |spec.args| > 0
    requires |args| < |spec.args| || |args| > ResolveGroup(Arity(spec), args, kargs, handle).maxArgs
    ensures BindAsWritten(spec, args, kargs, handle) == Failure(AttributeMissing)
  {
    assert spec.args[0] in Fields(spec);
  }

  // ---------------------------------------------------------------------------
  // The `_vargs` name tags

  /** `cls.__name__[1:]`. */
  function DropFirst(s: string): string
  {
    if |s| == 0 then [] else s[1..]
  }

  /** The tag prefix: `<saved>.<ClassName>.` or, with an empty saved tag, `<ClassName>.`. */
  function VargPrefix(saved: string, className: string): string
  {
    if saved != "" then saved + "." + DropFirst(className) + "." else DropFirst(className) + "."
  }

  /**
   * The `NameTag` under which the parameter for field `k` is created:
   * `<saved>.<ClassName without its leading _>.<k>`, or `<ClassName without
   * its leading _>.<k>` when the saved tag is empty.
   */
  function VargTag(saved: string, className: string, k: string): string
  {
    VargPrefix(saved, className) + k
  }

  /** Different fields of one factory call get different parameter names. */
  lemma VargTagsDistinct(saved: string, className: string, k1: string, k2: string)
    requires k1 != k2
    ensures VargTag(saved, className, k1) != VargTag(saved, className, k2)
  {
    var p := VargPrefix(saved, className);
    assert (p + k1)[|p|..] == k1;
    assert (p + k2)[|p|..] == k2;
  }

  /** How many leading `_vargs` fields hold numbers, i.e. how many parameters get created before one fails. */
  function NumericPrefix(attrs: map<string, Value>, vargs: seq<string>): (c: nat)
    ensures c <= |vargs|
    ensures forall t :: 0 <= t < c ==> vargs[t] in attrs && attrs[vargs[t]].Num?
    ensures c < |vargs| ==> vargs[c] !in attrs || !attrs[vargs[c]].Num?
  {
    if vargs == [] || vargs[0] !in attrs || !attrs[vargs[0]].Num? then 0
    else 1 + NumericPrefix(attrs, vargs[1..])
  }

  /** The prefix extends past a numeric field it has reached. */
  lemma NumericPrefixStep(attrs: map<string, Value>, vargs: seq<string>, t: nat)
    requires t <= NumericPrefix(attrs, vargs) && t < |vargs|
    ensures vargs[t] in attrs && attrs[vargs[t]].Num? <==> t < NumericPrefix(attrs, vargs)
  {
  }
}
