/** The interpreter as the source runs it: one object owning every frame and every
    environment, whose methods look names up with loops that stop at the first owner,
    fill hashes pair by pair, `unshift` into environments and assign into frames in place,
    while `_eval` recurses.  Each method is proved to leave the result and the store that
    the store-passing evaluator of module Semantics describes, and to keep the store free
    of dangling addresses. */
module Machine {
  import opened Values
  import opened ListPrimitives
  import opened Primitives
  import opened Environment
  import opened SpecialForms
  import opened Semantics
  import opened SemanticsLemmas
  import opened StoreInvariant

  /** `alist.each { |k, v| h[k] = v }` over `params.zip(args)`. */
  method FillFrame(params: seq<Value>, args: seq<Value>) returns (h: map<Value, Value>)
    ensures h == Bind(map[], params, args)
  {
    h := map[];
    var i := 0;
    while i < |params|
      invariant 0 <= i <= |params|
      invariant h == Bind(map[], params[..i], args)
    {
      assert params[..i + 1][..i] == params[..i];
      h := h[params[i] := Nth(args, i)];
      i := i + 1;
    }
    assert params[..|params|] == params;
  }

  /** The frame found at position `i`, with none before it, is the owner; none found in
      the whole chain means no owner. */
  lemma OwnerAt(name: Value, chain: seq<map<Value, Value>>, i: nat)
    requires i <= |chain| && (forall j | 0 <= j < i :: name !in chain[j])
    requires i < |chain| ==> name in chain[i]
    ensures OwnerIndex(name, chain) == if i < |chain| then Some(i) else None
  {
  }

  class Interpreter {
    /** Every frame, by address. */
    var frames: seq<map<Value, Value>>
    /** Every environment: the addresses of its frames, innermost first. */
    var chains: seq<seq<FrameId>>

    function State(): Store
      reads this
    {
      Store(frames, chains)
    }

    ghost predicate Valid()
      reads this
    {
      WellFormed(State())
    }

    /** `$global_env = [$list_env, $primitive_fun_env, $boolean_env]`, environment 0. */
    constructor ()
      ensures State() == GlobalStore() && Valid()
    {
      frames := [ListFrame, PrimitiveFunFrame, BooleanFrame];
      chains := [[0, 1, 2]];
    }

    /** The loop `env.each do |alist| if alist.key?(var) ... break end end` of `lookup_var`
        and `lookup_var_ref`: the position of the first frame of `ids` that has `name`,
        or `|ids|` when none has. */
    method FirstOwner(name: Value, ids: seq<FrameId>) returns (i: nat)
      requires forall j | 0 <= j < |ids| :: ids[j] < |frames|
      ensures i <= |ids| && forall j | 0 <= j < i :: name !in frames[ids[j]]
      ensures i < |ids| ==> name in frames[ids[i]]
    {
      i := 0;
      while i < |ids|
        invariant i <= |ids| && forall j | 0 <= j < i :: name !in frames[ids[j]]
      {
        if name in frames[ids[i]] {
          break;
        }
        i := i + 1;
      }
    }

    /** `lookup_var`: walks the frames of `env` and stops at the first that has `name`;
        no owner, or an owner holding nil, raises. */
    method LookupVar(name: Value, env: EnvId) returns (r: Result<Value>)
      requires Valid()
      ensures r == Environment.LookupVar(name, Chain(State(), env))
    {
      var ids := if env < |chains| then chains[env] else [];
      var i := FirstOwner(name, ids);
      OwnerAt(name, Chain(State(), env), i);
      var val := if i < |ids| then frames[ids[i]][name] else Nil;
      if val == Nil {
        r := Err(UnboundVariable(name));
      } else {
        r := Ok(val);
      }
    }

    /** `lookup_var_ref`: the address of the first frame of `env` that has `name`. */
    method LookupVarRef(name: Value, env: EnvId) returns (r: Option<FrameId>)
      requires Valid()
      ensures r == Environment.LookupVarRef(name, State(), env)
    {
      var ids := if env < |chains| then chains[env] else [];
      var i := FirstOwner(name, ids);
      OwnerAt(name, Chain(State(), env), i);
      r := if i < |ids| then Some(ids[i]) else None;
    }

    /** `extend_env`: a new frame and a new environment `[h] + env`. */
    method ExtendEnv(params: seq<Value>, args: seq<Value>, env: EnvId) returns (e: EnvId)
      requires Valid() && AllWithin(args, |chains|)
      modifies this
      ensures (e, State()) == Environment.ExtendEnv(params, args, env, old(State()))
      ensures Valid() && e < |chains|
    {
      ExtendEnvKeeps(params, args, env, State());
      var h := FillFrame(params, args);
      var ids := if env < |chains| then chains[env] else [];
      frames := frames + [h];
      chains := chains + [[|frames| - 1] + ids];
      e := |chains| - 1;
    }

    /** `extend_env_q`: a new frame unshifted into the environment object `env`. */
    method ExtendEnvQ(params: seq<Value>, args: seq<Value>, env: EnvId)
      requires Valid() && env < |chains| && AllWithin(args, |chains|)
      modifies this
      ensures State() == Environment.ExtendEnvQ(params, args, env, old(State()))
      ensures Valid()
    {
      ExtendEnvQKeeps(params, args, env, State());
      var h := FillFrame(params, args);
      frames := frames + [h];
      chains := chains[env := [|frames| - 1] + chains[env]];
    }

    /** `var_ref[var] = val`. */
    method Assign(id: FrameId, name: Value, v: Value)
      requires Valid() && id < |frames| && Within(v, |chains|)
      modifies this
      ensures State() == Environment.Assign(old(State()), id, name, v)
      ensures Valid()
    {
      AssignKeeps(State(), id, name, v);
      frames := frames[id := frames[id][name := v]];
    }

    /** `set_extend_env_q`: `ext_env[0][parameter] = arg_val` pair by pair. */
    method SetExtendEnvQ(params: seq<Value>, vals: seq<Value>, ext: EnvId)
      requires Valid() && ext < |chains| && AllWithin(vals, |chains|)
      modifies this
      ensures State() == Environment.SetExtendEnvQ(params, vals, ext, old(State()))
      ensures Valid()
    {
      SetExtendEnvQKeeps(params, vals, ext, State());
      if |chains[ext]| == 0 {
        return;
      }
      var id := chains[ext][0];
      ghost var start := frames[id];
      var i := 0;
      while i < |params|
        invariant 0 <= i <= |params|
        invariant chains == old(chains) && |frames| == |old(frames)|
        invariant frames == old(frames)[id := Bind(start, params[..i], vals)]
      {
        assert params[..i + 1][..i] == params[..i];
        frames := frames[id := frames[id][params[i] := Nth(vals, i)]];
        i := i + 1;
      }
      assert params[..|params|] == params;
    }

    /** `_eval`. */
    method Eval(exp: Value, env: EnvId, fuel: nat) returns (r: Result<Value>)
      requires Valid() && env < |chains| && Within(exp, |chains|)
      modifies this
      ensures Outcome(r, State()) == Semantics.Eval(exp, env, old(State()), fuel)
      ensures Valid() && Grows(old(State()), State()) && (r.Ok? ==> Within(r.value, |chains|))
      decreases fuel, 0, 0
    {
      EvalKeeps(exp, env, State(), fuel);
      if fuel == 0 {
        return Err(OutOfFuel);
      }
      if !exp.List? {
        if exp.Num? {
          return Ok(exp);
        }
        r := LookupVar(exp, env);
        return;
      }
      match SpecialFormOf(exp)
      case Some(form) =>
        r := EvalSpecialForm(form, exp, env, fuel - 1);
      case None =>
        r := EvalApplication(exp, env, fuel - 1);
    }

    /** The last branch of `_eval`: `fun = _eval(car(exp))`, `args = eval_list(cdr(exp))`,
        `apply(fun, args)`, with the fuel that `_eval` hands on. */
    method EvalApplication(exp: Value, env: EnvId, fuel: nat) returns (r: Result<Value>)
      requires exp.List? && SpecialFormOf(exp).None?
      requires Valid() && env < |chains| && Within(exp, |chains|)
      modifies this
      ensures Outcome(r, State()) == Semantics.Eval(exp, env, old(State()), fuel + 1)
      ensures Valid() && Grows(old(State()), State()) && (r.Ok? ==> Within(r.value, |chains|))
      decreases fuel, 3, 0
    {
      EvalKeeps(exp, env, State(), fuel + 1);
      ghost var s0 := State();
      WithinIndex(exp, 0, |chains|);
      CdrWithin(exp, |chains|);
      var f := Eval(Car(exp).value, env, fuel);
      if f.Err? {
        return f;
      }
      WithinMono(Cdr(exp).value, |s0.chains|, |chains|);
      ghost var s1 := State();
      var args := EvalList(Cdr(exp).value, env, fuel);
      if args.Err? {
        return Err(args.error);
      }
      WithinMono(f.value, |s1.chains|, |chains|);
      r := Apply(f.value, args.value, fuel);
    }

    /** `eval_list`: `exp.map{|e| _eval(e, env)}`, left to right. */
    method EvalList(exp: Value, env: EnvId, fuel: nat) returns (r: Result<seq<Value>>)
      requires Valid() && env < |chains| && Within(exp, |chains|)
      modifies this
      ensures Outcome(r, State()) == Semantics.EvalList(exp, env, old(State()), fuel)
      ensures Valid() && Grows(old(State()), State()) && (r.Ok? ==> AllWithin(r.value, |chains|))
      decreases fuel, 2, 0
    {
      EvalListKeeps(exp, env, State(), fuel);
      if !exp.List? {
        return Err(WrongKind(exp));
      }
      ghost var s0 := State();
      var items := exp.items;
      var vals: seq<Value> := [];
      var i := 0;
      while i < |items|
        invariant 0 <= i <= |items|
        invariant Valid() && Grows(s0, State())
        invariant EvalEach(items[..i], env, s0, fuel) == Outcome(Ok(vals), State())
      {
        AllWithinMono(items, |s0.chains|, |chains|);
        ghost var t := State();
        var v := Eval(items[i], env, fuel);
        EvalEachStep(items, i, vals, env, s0, t, fuel);
        if v.Err? {
          return Err(v.error);
        }
        vals := vals + [v.value];
        i := i + 1;
      }
      assert items[..i] == items;
      r := Ok(vals);
    }

    /** `apply`. */
    method Apply(fun: Value, args: seq<Value>, fuel: nat) returns (r: Result<Value>)
      requires Valid() && Within(fun, |chains|) && AllWithin(args, |chains|)
      modifies this
      ensures Outcome(r, State()) == Semantics.Apply(fun, args, old(State()), fuel)
      ensures Valid() && Grows(old(State()), State()) && (r.Ok? ==> Within(r.value, |chains|))
      decreases fuel, 2, 0
    {
      ApplyKeeps(fun, args, State(), fuel);
      match fun
      case Prim(op) => r := ApplyPrimitiveFun(op, args);
      case Closure(_, _, _) => r := LambdaApply(fun, args, fuel);
      case _ => r := Err(NotApplicable(fun));
    }

    /** `lambda_apply`. */
    method LambdaApply(closure: Value, args: seq<Value>, fuel: nat) returns (r: Result<Value>)
      requires closure.Closure?
      requires Valid() && Within(closure, |chains|) && AllWithin(args, |chains|)
      modifies this
      ensures Outcome(r, State()) == Semantics.LambdaApply(closure, args, old(State()), fuel)
      ensures Valid() && Grows(old(State()), State()) && (r.Ok? ==> Within(r.value, |chains|))
      decreases fuel, 1, 0
    {
      LambdaApplyKeeps(closure, args, State(), fuel);
      if !closure.params.List? {
        return Err(WrongKind(closure.params));
      }
      ghost var s0 := State();
      var newEnv := ExtendEnv(closure.params.items, args, closure.env);
      WithinMono(closure.body, |s0.chains|, |chains|);
      r := Eval(closure.body, newEnv, fuel);
    }

    /** `eval_special_form`. */
    method EvalSpecialForm(form: Form, exp: Value, env: EnvId, fuel: nat) returns (r: Result<Value>)
      requires SpecialFormOf(exp) == Some(form)
      requires Valid() && env < |chains| && Within(exp, |chains|)
      modifies this
      ensures Outcome(r, State()) == Semantics.EvalSpecialForm(form, exp, env, old(State()), fuel)
      ensures Valid() && Grows(old(State()), State()) && (r.Ok? ==> Within(r.value, |chains|))
      decreases fuel, 4, 0
    {
      EvalSpecialFormKeeps(form, exp, env, State(), fuel);
      match form
      case Lambda => r := Ok(MakeClosure(exp, env));
      case Let => r := EvalLet(exp, env, fuel);
      case Letrec => r := EvalLetrec(exp, env, fuel);
      case If => r := EvalIf(exp, env, fuel);
      case Cond => r := EvalCond(exp, env, fuel);
      case Define => r := EvalDefine(exp, env, fuel);
      case Quote => r := EvalQuote(exp);
      case Setq => r := EvalSetq(exp, env, fuel);
    }

    /** `eval_if`. */
    method EvalIf(exp: Value, env: EnvId, fuel: nat) returns (r: Result<Value>)
      requires Valid() && env < |chains| && Within(exp, |chains|)
      modifies this
      ensures Outcome(r, State()) == Semantics.EvalIf(exp, env, old(State()), fuel)
      ensures Valid() && Grows(old(State()), State()) && (r.Ok? ==> Within(r.value, |chains|))
      decreases fuel, 1, 0
    {
      EvalIfKeeps(exp, env, State(), fuel);
      match IfParts(exp)
      case Err(e) => r := Err(e);
      case Ok((c, t, f)) =>
        ghost var s0 := State();
        WithinIndex(exp, 1, |chains|);
        WithinIndex(exp, 2, |chains|);
        WithinIndex(exp, 3, |chains|);
        var test := Eval(c, env, fuel);
        if test.Err? {
          return test;
        }
        WithinMono(t, |s0.chains|, |chains|);
        WithinMono(f, |s0.chains|, |chains|);
        if Truthy(test.value) {
          r := Eval(t, env, fuel);
        } else {
          r := Eval(f, env, fuel);
        }
    }

    /** `eval_cond`: the `if` chain of `cond_to_if`, evaluated by `eval_if`. */
    method EvalCond(exp: Value, env: EnvId, fuel: nat) returns (r: Result<Value>)
      requires exp.List? && |exp.items| > 0
      requires Valid() && env < |chains| && Within(exp, |chains|)
      modifies this
      ensures Outcome(r, State()) == Semantics.EvalCond(exp, env, old(State()), fuel)
      ensures Valid() && Grows(old(State()), State()) && (r.Ok? ==> Within(r.value, |chains|))
      decreases fuel, 2, 0
    {
      EvalCondKeeps(exp, env, State(), fuel);
      var clauses := Cdr(exp).value.items;
      CdrWithin(exp, |chains|);
      match CondToIf(clauses)
      case Err(e) => r := Err(e);
      case Ok(ifExp) =>
        CondToIfWithin(clauses, |chains|);
        r := EvalIf(ifExp, env, fuel);
    }

    /** `eval_define`. */
    method EvalDefine(exp: Value, env: EnvId, fuel: nat) returns (r: Result<Value>)
      requires exp.List?
      requires Valid() && env < |chains| && Within(exp, |chains|)
      modifies this
      ensures Outcome(r, State()) == Semantics.EvalDefine(exp, env, old(State()), fuel)
      ensures Valid() && Grows(old(State()), State()) && (r.Ok? ==> Within(r.value, |chains|))
      decreases fuel, 1, 0
    {
      EvalDefineKeeps(exp, env, State(), fuel);
      var (name, valExp) := DefineParts(exp);
      DefinePartsWithin(exp, |chains|);
      var ref := LookupVarRef(name, env);
      if ref.Some? {
        LookupVarRefAllocated(name, State(), env);
      }
      var v := Eval(valExp, env, fuel);
      if v.Err? {
        return v;
      }
      match ref {
        case Some(id) => Assign(id, name, v.value);
        case None => ExtendEnvQ([name], [v.value], env);
      }
      r := Ok(Nil);
    }

    /** `eval_setq`. */
    method EvalSetq(exp: Value, env: EnvId, fuel: nat) returns (r: Result<Value>)
      requires exp.List?
      requires Valid() && env < |chains| && Within(exp, |chains|)
      modifies this
      ensures Outcome(r, State()) == Semantics.EvalSetq(exp, env, old(State()), fuel)
      ensures Valid() && Grows(old(State()), State()) && (r.Ok? ==> Within(r.value, |chains|))
      decreases fuel, 1, 0
    {
      EvalSetqKeeps(exp, env, State(), fuel);
      var (name, valExp) := SetqParts(exp);
      var ref := LookupVarRef(name, env);
      if ref.None? {
        return Err(UndefinedVariable(name));
      }
      LookupVarRefAllocated(name, State(), env);
      var v := Eval(valExp, env, fuel);
      if v.Err? {
        return v;
      }
      Assign(ref.value, name, v.value);
      r := Ok(Nil);
    }

    /** `eval_let`. */
    method EvalLet(exp: Value, env: EnvId, fuel: nat) returns (r: Result<Value>)
      requires exp.List?
      requires Valid() && env < |chains| && Within(exp, |chains|)
      modifies this
      ensures Outcome(r, State()) == Semantics.EvalLet(exp, env, old(State()), fuel)
      ensures Valid() && Grows(old(State()), State()) && (r.Ok? ==> Within(r.value, |chains|))
      decreases fuel, 1, 0
    {
      EvalLetKeeps(exp, env, State(), fuel);
      match LetToParametersArgsBody(exp)
      case Err(e) => r := Err(e);
      case Ok(p) =>
        LetPartsWithin(exp, |chains|);
        r := Eval(LambdaApplication(p.params, p.body, p.args), env, fuel);
    }

    /** `eval_letrec`. */
    method EvalLetrec(exp: Value, env: EnvId, fuel: nat) returns (r: Result<Value>)
      requires exp.List?
      requires Valid() && env < |chains| && Within(exp, |chains|)
      modifies this
      ensures Outcome(r, State()) == Semantics.EvalLetrec(exp, env, old(State()), fuel)
      ensures Valid() && Grows(old(State()), State()) && (r.Ok? ==> Within(r.value, |chains|))
      decreases fuel, 3, 0
    {
      EvalLetrecKeeps(exp, env, State(), fuel);
      match LetToParametersArgsBody(exp)
      case Err(e) => r := Err(e);
      case Ok(p) =>
        ghost var s0 := State();
        LetPartsWithin(exp, |chains|);
        var ext := ExtendEnv(p.params, DummyArgs(p.params), env);
        WithinMono(List(p.args), |s0.chains|, |chains|);
        var vals := EvalList(List(p.args), ext, fuel);
        if vals.Err? {
          return Err(vals.error);
        }
        SetExtendEnvQ(p.params, vals.value, ext);
        var app := LambdaApplication(p.params, p.body, p.args);
        WithinMono(app, |s0.chains|, |chains|);
        r := Eval(app, ext, fuel);
    }
  }
}
