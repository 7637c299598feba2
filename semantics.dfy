/** The evaluator `_eval` / `apply` as store-passing functions: each takes the store as it
    is when the Ruby function is entered and gives back the result together with the store
    as it is when the Ruby function returns or raises (mutations made before a `raise`
    stay).  `fuel` bounds the depth of the recursion through `_eval`, which the source
    does not bound; running out is the error `OutOfFuel`.

    The decreases clauses are (fuel, rank, size): `_eval` spends one unit of fuel and
    every other function ranks above the functions it calls with the same fuel. */
module Semantics {
  import opened Values
  import opened ListPrimitives
  import opened Primitives
  import opened Environment
  import opened SpecialForms

  datatype Outcome<T> = Outcome(result: Result<T>, store: Store)

  /** `$global_env = [$list_env, $primitive_fun_env, $boolean_env]`: environment 0, the
      only one there is before evaluation starts. */
  function GlobalStore(): (s: Store)
    ensures WellFormed(s) && |s.chains| == 1
    ensures Chain(s, 0) == [ListFrame, PrimitiveFunFrame, BooleanFrame]
  {
    Store([ListFrame, PrimitiveFunFrame, BooleanFrame], [[0, 1, 2]])
  }

  /** `_eval`: a number evaluates to itself, any other atom is looked up, a special form
      goes to its handler and any other list is an application: the head is evaluated,
      then the arguments left to right, then `apply`. */
  function Eval(exp: Value, env: EnvId, s: Store, fuel: nat): Outcome<Value>
    decreases fuel, 0, 0
  {
    if fuel == 0 then Outcome(Err(OutOfFuel), s)
    else if !exp.List? then
      if exp.Num? then Outcome(Ok(exp), s) else Outcome(LookupVar(exp, Chain(s, env)), s)
    else match SpecialFormOf(exp)
      case Some(form) => EvalSpecialForm(form, exp, env, s, fuel - 1)
      case None =>
        var f := Eval(Car(exp).value, env, s, fuel - 1);
        if f.result.Err? then f
        else
          var a := EvalList(Cdr(exp).value, env, f.store, fuel - 1);
          if a.result.Err? then Outcome(Err(a.result.error), a.store)
          else Apply(f.result.value, a.result.value, a.store, fuel - 1)
  }

  /** The `map` of `eval_list`: each expression in turn, in the store the previous one
      left behind. */
  function EvalEach(exps: seq<Value>, env: EnvId, s: Store, fuel: nat): Outcome<seq<Value>>
    decreases fuel, 1, |exps|
  {
    if |exps| == 0 then Outcome(Ok([]), s)
    else
      var first := Eval(exps[0], env, s, fuel);
      if first.result.Err? then Outcome(Err(first.result.error), first.store)
      else
        var rest := EvalEach(exps[1..], env, first.store, fuel);
        if rest.result.Err? then rest
        else Outcome(Ok([first.result.value] + rest.result.value), rest.store)
  }

  /** `eval_list`: `exp.map{|e| _eval(e, env)}`; only an array answers `map`. */
  function EvalList(exp: Value, env: EnvId, s: Store, fuel: nat): Outcome<seq<Value>>
    decreases fuel, 2, 0
  {
    if !exp.List? then Outcome(Err(WrongKind(exp)), s) else EvalEach(exp.items, env, s, fuel)
  }

  /** `apply`: a primitive is called with the arguments spread out, a closure goes to
      `lambda_apply`. */
  function Apply(fun: Value, args: seq<Value>, s: Store, fuel: nat): Outcome<Value>
    decreases fuel, 2, 0
  {
    match fun
    case Prim(op) => Outcome(ApplyPrimitiveFun(op, args), s)
    case Closure(_, _, _) => LambdaApply(fun, args, s, fuel)
    case _ => Outcome(Err(NotApplicable(fun)), s)
  }

  /** `lambda_apply`: the body, evaluated in `extend_env(params, args, captured_env)`. */
  function LambdaApply(closure: Value, args: seq<Value>, s: Store, fuel: nat): Outcome<Value>
    requires closure.Closure?
    decreases fuel, 1, 0
  {
    if !closure.params.List? then Outcome(Err(WrongKind(closure.params)), s)
    else
      var (newEnv, s1) := ExtendEnv(closure.params.items, args, closure.env, s);
      Eval(closure.body, newEnv, s1, fuel)
  }

  /** `eval_special_form`. */
  function EvalSpecialForm(form: Form, exp: Value, env: EnvId, s: Store, fuel: nat): Outcome<Value>
    requires SpecialFormOf(exp) == Some(form)
    decreases fuel, 4, 0
  {
    match form
    case Lambda => Outcome(Ok(MakeClosure(exp, env)), s)
    case Let => EvalLet(exp, env, s, fuel)
    case Letrec => EvalLetrec(exp, env, s, fuel)
    case If => EvalIf(exp, env, s, fuel)
    case Cond => EvalCond(exp, env, s, fuel)
    case Define => EvalDefine(exp, env, s, fuel)
    case Quote => Outcome(EvalQuote(exp), s)
    case Setq => EvalSetq(exp, env, s, fuel)
  }

  /** `eval_if`: the condition, then exactly one branch, chosen by Ruby truthiness. */
  function EvalIf(exp: Value, env: EnvId, s: Store, fuel: nat): Outcome<Value>
    decreases fuel, 1, 0
  {
    match IfParts(exp)
    case Err(e) => Outcome(Err(e), s)
    case Ok((c, t, f)) =>
      var o := Eval(c, env, s, fuel);
      if o.result.Err? then o
      else if Truthy(o.result.value) then Eval(t, env, o.store, fuel)
      else Eval(f, env, o.store, fuel)
  }

  /** `eval_cond`: `eval_if(cond_to_if(cdr(exp)), env)`. */
  function EvalCond(exp: Value, env: EnvId, s: Store, fuel: nat): Outcome<Value>
    requires exp.List? && |exp.items| > 0
    decreases fuel, 2, 0
  {
    match CondToIf(Cdr(exp).value.items)
    case Err(e) => Outcome(Err(e), s)
    case Ok(ifExp) => EvalIf(ifExp, env, s, fuel)
  }

  /** `eval_define`: the owning frame is looked up before the value is evaluated; it is
      then overwritten in place, or, if there was none, a frame `{name => value}` is
      unshifted into `env`.  The result is nil. */
  function EvalDefine(exp: Value, env: EnvId, s: Store, fuel: nat): Outcome<Value>
    requires exp.List?
    decreases fuel, 1, 0
  {
    var (name, valExp) := DefineParts(exp);
    var ref := LookupVarRef(name, s, env);
    var o := Eval(valExp, env, s, fuel);
    if o.result.Err? then o
    else match ref
      case Some(id) => Outcome(Ok(Nil), Assign(o.store, id, name, o.result.value))
      case None => Outcome(Ok(Nil), ExtendEnvQ([name], [o.result.value], env, o.store))
  }

  /** `eval_setq`: a name no frame owns is an error raised before the value is
      evaluated; otherwise the owning frame is overwritten in place.  The result is nil. */
  function EvalSetq(exp: Value, env: EnvId, s: Store, fuel: nat): Outcome<Value>
    requires exp.List?
    decreases fuel, 1, 0
  {
    var (name, valExp) := SetqParts(exp);
    match LookupVarRef(name, s, env)
    case None => Outcome(Err(UndefinedVariable(name)), s)
    case Some(id) =>
      var o := Eval(valExp, env, s, fuel);
      if o.result.Err? then o
      else Outcome(Ok(Nil), Assign(o.store, id, name, o.result.value))
  }

  /** `eval_let`: evaluates `((lambda params body) args...)` in `env`. */
  function EvalLet(exp: Value, env: EnvId, s: Store, fuel: nat): Outcome<Value>
    requires exp.List?
    decreases fuel, 1, 0
  {
    match LetToParametersArgsBody(exp)
    case Err(e) => Outcome(Err(e), s)
    case Ok(p) => Eval(LambdaApplication(p.params, p.body, p.args), env, s, fuel)
  }

  /** `eval_letrec`: a new environment whose new frame binds every name to `:dummy`; the
      initialisers are evaluated there; `set_extend_env_q` writes their values into that
      environment's innermost frame; finally `((lambda params body) args...)` is evaluated
      in that environment, which evaluates the initialisers a second time. */
  function EvalLetrec(exp: Value, env: EnvId, s: Store, fuel: nat): Outcome<Value>
    requires exp.List?
    decreases fuel, 3, 0
  {
    match LetToParametersArgsBody(exp)
    case Err(e) => Outcome(Err(e), s)
    case Ok(p) =>
      var (ext, s1) := ExtendEnv(p.params, DummyArgs(p.params), env, s);
      var o := EvalList(List(p.args), ext, s1, fuel);
      if o.result.Err? then Outcome(Err(o.result.error), o.store)
      else
        var s2 := SetExtendEnvQ(p.params, o.result.value, ext, o.store);
        Eval(LambdaApplication(p.params, p.body, p.args), ext, s2, fuel)
  }
}
