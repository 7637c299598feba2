/** Evaluation never creates a dangling address: from a well-formed store and an
    expression that refers only to existing environments, every evaluator function leaves
    a well-formed store that has only grown, and its value refers only to existing
    environments. */
module StoreInvariant {
  import opened Values
  import opened ListPrimitives
  import opened Primitives
  import opened Environment
  import opened SpecialForms
  import opened Semantics

  ghost predicate AllWithin(vs: seq<Value>, n: nat)
  {
    forall i | 0 <= i < |vs| :: Within(vs[i], n)
  }

  /** What a value-producing step keeps. */
  ghost predicate KeptValue(s: Store, o: Outcome<Value>)
  {
    WellFormed(o.store) && Grows(s, o.store) && (o.result.Ok? ==> Within(o.result.value, |o.store.chains|))
  }

  /** What a step producing a list of values keeps. */
  ghost predicate KeptValues(s: Store, o: Outcome<seq<Value>>)
  {
    WellFormed(o.store) && Grows(s, o.store) && (o.result.Ok? ==> AllWithin(o.result.value, |o.store.chains|))
  }

  lemma AllWithinMono(vs: seq<Value>, n: nat, m: nat)
    requires AllWithin(vs, n) && n <= m
    ensures AllWithin(vs, m)
  {
    forall i | 0 <= i < |vs| ensures Within(vs[i], m) {
      WithinMono(vs[i], n, m);
    }
  }

  // ---- the store operations

  /** The value `lookup_var` finds sits in a frame of the store. */
  lemma LookupWithin(name: Value, s: Store, env: EnvId)
    requires WellFormed(s) && LookupVar(name, Chain(s, env)).Ok?
    ensures Within(LookupVar(name, Chain(s, env)).value, |s.chains|)
  {
    var i := OwnerIndex(name, Chain(s, env)).value;
    var id := ChainIds(s, env)[i];
    assert env < |s.chains|;
    assert id < |s.frames|;
    assert Chain(s, env)[i] == s.frames[id];
  }

  /** `lookup_var_ref` gives an allocated frame. */
  lemma LookupVarRefAllocated(name: Value, s: Store, env: EnvId)
    requires WellFormed(s) && LookupVarRef(name, s, env).Some?
    ensures LookupVarRef(name, s, env).value < |s.frames|
  {
    assert env < |s.chains|;
  }

  lemma {:induction false} BindWithin(m: map<Value, Value>, params: seq<Value>, args: seq<Value>, n: nat)
    requires FrameWithin(m, n) && AllWithin(args, n)
    ensures FrameWithin(Bind(m, params, args), n)
    decreases |params|
  {
    if |params| > 0 {
      BindWithin(m, params[..|params| - 1], args, n);
    }
  }

  /** Growing the store keeps the old frames well formed. */
  lemma FramesWithinMono(s: Store, n: nat, m: nat)
    requires forall id, k | 0 <= id < |s.frames| && k in s.frames[id] :: Within(s.frames[id][k], n)
    requires n <= m
    ensures forall id, k | 0 <= id < |s.frames| && k in s.frames[id] :: Within(s.frames[id][k], m)
  {
    forall id, k | 0 <= id < |s.frames| && k in s.frames[id] ensures Within(s.frames[id][k], m) {
      WithinMono(s.frames[id][k], n, m);
    }
  }

  lemma ExtendEnvKeeps(params: seq<Value>, args: seq<Value>, env: EnvId, s: Store)
    requires WellFormed(s) && AllWithin(args, |s.chains|)
    ensures var (e, t) := ExtendEnv(params, args, env, s); WellFormed(t) && Grows(s, t) && e < |t.chains|
  {
    var (e, t) := ExtendEnv(params, args, env, s);
    var m := Bind(map[], params, args);
    BindWithin(map[], params, args, |s.chains|);
    FramesWithinMono(s, |s.chains|, |t.chains|);
    forall k | k in m ensures Within(m[k], |t.chains|) {
      WithinMono(m[k], |s.chains|, |t.chains|);
    }
    assert t.frames[|s.frames|] == m;
  }

  lemma ExtendEnvQKeeps(params: seq<Value>, args: seq<Value>, env: EnvId, s: Store)
    requires WellFormed(s) && AllWithin(args, |s.chains|)
    ensures var t := ExtendEnvQ(params, args, env, s); WellFormed(t) && Grows(s, t)
  {
    var t := ExtendEnvQ(params, args, env, s);
    BindWithin(map[], params, args, |s.chains|);
    assert t.frames[|s.frames|] == Bind(map[], params, args);
    if env < |s.chains| {
      assert forall i | 0 <= i < |t.chains[env]| :: t.chains[env][i] < |t.frames|;
    }
  }

  lemma AssignKeeps(s: Store, id: FrameId, name: Value, v: Value)
    requires WellFormed(s) && Within(v, |s.chains|)
    ensures var t := Assign(s, id, name, v); WellFormed(t) && Grows(s, t)
  {
    var t := Assign(s, id, name, v);
    forall fid, k | 0 <= fid < |t.frames| && k in t.frames[fid] ensures Within(t.frames[fid][k], |t.chains|) {
      assert t.frames[fid] == FrameAt(t, fid);
      assert FrameAt(s, fid) == s.frames[fid];
    }
  }

  lemma SetExtendEnvQKeeps(params: seq<Value>, vals: seq<Value>, ext: EnvId, s: Store)
    requires WellFormed(s) && AllWithin(vals, |s.chains|)
    ensures var t := SetExtendEnvQ(params, vals, ext, s); WellFormed(t) && Grows(s, t)
  {
    var ids := ChainIds(s, ext);
    if |ids| > 0 {
      assert ext < |s.chains|;
      var m := FrameAt(s, ids[0]);
      assert m == s.frames[ids[0]];
      BindWithin(m, params, vals, |s.chains|);
    }
  }

  // ---- the values the syntax and the primitives hand out

  lemma CdrWithin(v: Value, n: nat)
    requires Within(v, n) && Cdr(v).Ok?
    ensures Within(Cdr(v).value, n)
  {
  }

  lemma PrimitiveWithin(op: PrimOp, args: seq<Value>, n: nat)
    requires AllWithin(args, n) && ApplyPrimitiveFun(op, args).Ok?
    ensures Within(ApplyPrimitiveFun(op, args).value, n)
  {
    if |args| > 0 && op == CarOp && Index(args[0], 0).Ok? {
      WithinIndex(args[0], 0, n);
    }
    if |args| > 0 && op == CdrOp && Cdr(args[0]).Ok? {
      CdrWithin(args[0], n);
    }
    if |args| == 2 && op == Sub && args[0].List? && args[1].List? {
      DifferenceSpec(args[0].items, args[1].items);
      var d := Difference(args[0].items, args[1].items);
      forall i | 0 <= i < |d| ensures Within(d[i], n) {
        assert d[i] in args[0].items;
      }
    }
    if |args| == 2 && op == Mul && args[0].List? && args[1].Num? && args[1].n >= 0 {
      RepeatMembers(args[0].items, args[1].n);
      var d := Repeat(args[0].items, args[1].n);
      forall i | 0 <= i < |d| ensures Within(d[i], n) {
        assert d[i] in args[0].items;
      }
    }
  }

  lemma DefinePartsWithin(exp: Value, n: nat)
    requires exp.List? && Within(exp, n)
    ensures Within(DefineParts(exp).0, n) && Within(DefineParts(exp).1, n)
  {
    var target := Nth(exp.items, 1);
    if target.List? {
      WithinIndex(target, 0, n);
      CdrWithin(target, n);
    }
  }

  lemma {:induction false} CondToIfWithin(clauses: seq<Value>, n: nat)
    requires AllWithin(clauses, n) && CondToIf(clauses).Ok?
    ensures Within(CondToIf(clauses).value, n)
  {
    if |clauses| > 0 {
      WithinIndex(clauses[0], 0, n);
      WithinIndex(clauses[0], 1, n);
      CondToIfWithin(clauses[1..], n);
    }
  }

  lemma LetPartsWithin(exp: Value, n: nat)
    requires exp.List? && Within(exp, n) && LetToParametersArgsBody(exp).Ok?
    ensures var p := LetToParametersArgsBody(exp).value;
      AllWithin(p.params, n) && AllWithin(p.args, n) && Within(p.body, n) &&
      Within(LambdaApplication(p.params, p.body, p.args), n)
  {
    var bindings := Nth(exp.items, 1).items;
    var p := LetToParametersArgsBody(exp).value;
    forall i | 0 <= i < |bindings| ensures Within(p.params[i], n) && Within(p.args[i], n) {
      WithinIndex(bindings[i], 0, n);
      WithinIndex(bindings[i], 1, n);
    }
    var app := LambdaApplication(p.params, p.body, p.args);
    assert forall i | 0 <= i < |app.items| :: Within(app.items[i], n);
  }

  // ---- the evaluator

  lemma {:induction false} EvalKeeps(exp: Value, env: EnvId, s: Store, fuel: nat)
    requires WellFormed(s) && env < |s.chains| && Within(exp, |s.chains|)
    ensures KeptValue(s, Eval(exp, env, s, fuel))
    decreases fuel, 0, 0
  {
    if fuel == 0 {
    } else if !exp.List? {
      if !exp.Num? && LookupVar(exp, Chain(s, env)).Ok? {
        LookupWithin(exp, s, env);
      }
    } else {
      match SpecialFormOf(exp)
      case Some(form) => EvalSpecialFormKeeps(form, exp, env, s, fuel - 1);
      case None => EvalApplicationKeeps(exp, env, s, fuel - 1);
    }
  }

  lemma {:induction false} EvalApplicationKeeps(exp: Value, env: EnvId, s: Store, fuel: nat)
    requires exp.List? && SpecialFormOf(exp).None?
    requires WellFormed(s) && env < |s.chains| && Within(exp, |s.chains|)
    ensures KeptValue(s, Eval(exp, env, s, fuel + 1))
    decreases fuel, 3, 0
  {
    WithinIndex(exp, 0, |s.chains|);
    var f := Eval(Car(exp).value, env, s, fuel);
    EvalKeeps(Car(exp).value, env, s, fuel);
    if f.result.Ok? {
      CdrWithin(exp, |s.chains|);
      WithinMono(Cdr(exp).value, |s.chains|, |f.store.chains|);
      var a := EvalList(Cdr(exp).value, env, f.store, fuel);
      EvalListKeeps(Cdr(exp).value, env, f.store, fuel);
      if a.result.Ok? {
        WithinMono(f.result.value, |f.store.chains|, |a.store.chains|);
        ApplyKeeps(f.result.value, a.result.value, a.store, fuel);
      }
    }
  }

  lemma {:induction false} EvalEachKeeps(exps: seq<Value>, env: EnvId, s: Store, fuel: nat)
    requires WellFormed(s) && env < |s.chains| && AllWithin(exps, |s.chains|)
    ensures KeptValues(s, EvalEach(exps, env, s, fuel))
    decreases fuel, 1, |exps|
  {
    if |exps| > 0 {
      var first := Eval(exps[0], env, s, fuel);
      EvalKeeps(exps[0], env, s, fuel);
      if first.result.Ok? {
        AllWithinMono(exps, |s.chains|, |first.store.chains|);
        var rest := EvalEach(exps[1..], env, first.store, fuel);
        EvalEachKeeps(exps[1..], env, first.store, fuel);
        if rest.result.Ok? {
          WithinMono(first.result.value, |first.store.chains|, |rest.store.chains|);
          var vs := [first.result.value] + rest.result.value;
          assert forall i | 0 <= i < |vs| :: Within(vs[i], |rest.store.chains|);
        }
      }
    }
  }

  lemma EvalListKeeps(exp: Value, env: EnvId, s: Store, fuel: nat)
    requires WellFormed(s) && env < |s.chains| && Within(exp, |s.chains|)
    ensures KeptValues(s, EvalList(exp, env, s, fuel))
    decreases fuel, 2, 0
  {
    if exp.List? {
      EvalEachKeeps(exp.items, env, s, fuel);
    }
  }

  lemma ApplyKeeps(fun: Value, args: seq<Value>, s: Store, fuel: nat)
    requires WellFormed(s) && Within(fun, |s.chains|) && AllWithin(args, |s.chains|)
    ensures KeptValue(s, Apply(fun, args, s, fuel))
    decreases fuel, 2, 0
  {
    match fun
    case Prim(op) =>
      if ApplyPrimitiveFun(op, args).Ok? {
        PrimitiveWithin(op, args, |s.chains|);
      }
    case Closure(_, _, _) => LambdaApplyKeeps(fun, args, s, fuel);
    case _ =>
  }

  lemma LambdaApplyKeeps(closure: Value, args: seq<Value>, s: Store, fuel: nat)
    requires closure.Closure? && WellFormed(s) && Within(closure, |s.chains|) && AllWithin(args, |s.chains|)
    ensures KeptValue(s, LambdaApply(closure, args, s, fuel))
    decreases fuel, 1, 0
  {
    if closure.params.List? {
      var (newEnv, s1) := ExtendEnv(closure.params.items, args, closure.env, s);
      ExtendEnvKeeps(closure.params.items, args, closure.env, s);
      WithinMono(closure.body, |s.chains|, |s1.chains|);
      EvalKeeps(closure.body, newEnv, s1, fuel);
    }
  }

  lemma EvalSpecialFormKeeps(form: Form, exp: Value, env: EnvId, s: Store, fuel: nat)
    requires SpecialFormOf(exp) == Some(form)
    requires WellFormed(s) && env < |s.chains| && Within(exp, |s.chains|)
    ensures KeptValue(s, EvalSpecialForm(form, exp, env, s, fuel))
    decreases fuel, 4, 0
  {
    match form
    case Lambda =>
    case Let => EvalLetKeeps(exp, env, s, fuel);
    case Letrec => EvalLetrecKeeps(exp, env, s, fuel);
    case If => EvalIfKeeps(exp, env, s, fuel);
    case Cond => EvalCondKeeps(exp, env, s, fuel);
    case Define => EvalDefineKeeps(exp, env, s, fuel);
    case Quote =>
    case Setq => EvalSetqKeeps(exp, env, s, fuel);
  }

  lemma EvalIfKeeps(exp: Value, env: EnvId, s: Store, fuel: nat)
    requires WellFormed(s) && env < |s.chains| && Within(exp, |s.chains|)
    ensures KeptValue(s, EvalIf(exp, env, s, fuel))
    decreases fuel, 1, 0
  {
    if IfParts(exp).Ok? {
      var (c, t, f) := IfParts(exp).value;
      WithinIndex(exp, 1, |s.chains|);
      WithinIndex(exp, 2, |s.chains|);
      WithinIndex(exp, 3, |s.chains|);
      var o := Eval(c, env, s, fuel);
      EvalKeeps(c, env, s, fuel);
      if o.result.Ok? {
        WithinMono(t, |s.chains|, |o.store.chains|);
        WithinMono(f, |s.chains|, |o.store.chains|);
        if Truthy(o.result.value) {
          EvalKeeps(t, env, o.store, fuel);
        } else {
          EvalKeeps(f, env, o.store, fuel);
        }
      }
    }
  }

  lemma EvalCondKeeps(exp: Value, env: EnvId, s: Store, fuel: nat)
    requires exp.List? && |exp.items| > 0
    requires WellFormed(s) && env < |s.chains| && Within(exp, |s.chains|)
    ensures KeptValue(s, EvalCond(exp, env, s, fuel))
    decreases fuel, 2, 0
  {
    var clauses := Cdr(exp).value.items;
    CdrWithin(exp, |s.chains|);
    if CondToIf(clauses).Ok? {
      CondToIfWithin(clauses, |s.chains|);
      EvalIfKeeps(CondToIf(clauses).value, env, s, fuel);
    }
  }

  lemma EvalDefineKeeps(exp: Value, env: EnvId, s: Store, fuel: nat)
    requires exp.List?
    requires WellFormed(s) && env < |s.chains| && Within(exp, |s.chains|)
    ensures KeptValue(s, EvalDefine(exp, env, s, fuel))
    decreases fuel, 1, 0
  {
    var (name, valExp) := DefineParts(exp);
    DefinePartsWithin(exp, |s.chains|);
    var o := Eval(valExp, env, s, fuel);
    EvalKeeps(valExp, env, s, fuel);
    if o.result.Ok? {
      match LookupVarRef(name, s, env)
      case Some(id) => AssignKeeps(o.store, id, name, o.result.value);
      case None => ExtendEnvQKeeps([name], [o.result.value], env, o.store);
    }
  }

  lemma EvalSetqKeeps(exp: Value, env: EnvId, s: Store, fuel: nat)
    requires exp.List?
    requires WellFormed(s) && env < |s.chains| && Within(exp, |s.chains|)
    ensures KeptValue(s, EvalSetq(exp, env, s, fuel))
    decreases fuel, 1, 0
  {
    var (name, valExp) := SetqParts(exp);
    if LookupVarRef(name, s, env).Some? {
      var id := LookupVarRef(name, s, env).value;
      var o := Eval(valExp, env, s, fuel);
      EvalKeeps(valExp, env, s, fuel);
      if o.result.Ok? {
        AssignKeeps(o.store, id, name, o.result.value);
      }
    }
  }

  lemma EvalLetKeeps(exp: Value, env: EnvId, s: Store, fuel: nat)
    requires exp.List?
    requires WellFormed(s) && env < |s.chains| && Within(exp, |s.chains|)
    ensures KeptValue(s, EvalLet(exp, env, s, fuel))
    decreases fuel, 1, 0
  {
    if LetToParametersArgsBody(exp).Ok? {
      var p := LetToParametersArgsBody(exp).value;
      LetPartsWithin(exp, |s.chains|);
      EvalKeeps(LambdaApplication(p.params, p.body, p.args), env, s, fuel);
    }
  }

  lemma EvalLetrecKeeps(exp: Value, env: EnvId, s: Store, fuel: nat)
    requires exp.List?
    requires WellFormed(s) && env < |s.chains| && Within(exp, |s.chains|)
    ensures KeptValue(s, EvalLetrec(exp, env, s, fuel))
    decreases fuel, 3, 0
  {
    if LetToParametersArgsBody(exp).Ok? {
      var p := LetToParametersArgsBody(exp).value;
      LetPartsWithin(exp, |s.chains|);
      var (ext, s1) := ExtendEnv(p.params, DummyArgs(p.params), env, s);
      ExtendEnvKeeps(p.params, DummyArgs(p.params), env, s);
      WithinMono(List(p.args), |s.chains|, |s1.chains|);
      var o := EvalList(List(p.args), ext, s1, fuel);
      EvalListKeeps(List(p.args), ext, s1, fuel);
      if o.result.Ok? {
        var s2 := SetExtendEnvQ(p.params, o.result.value, ext, o.store);
        SetExtendEnvQKeeps(p.params, o.result.value, ext, o.store);
        var app := LambdaApplication(p.params, p.body, p.args);
        WithinMono(app, |s.chains|, |s2.chains|);
        EvalKeeps(app, ext, s2, fuel);
      }
    }
  }
}
