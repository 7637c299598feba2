/** The log messages `_eval` and `apply` build when they are entered.

    `log` prints only while `DEBUG` is set, but Ruby evaluates its argument first, and the
    message is made with `pp`.  `pp` asks every value that is not a symbol, a number, nil
    or an array tagged `:closure` whether it is a lambda by indexing it with 0: `true` and
    `false` have no `[]` (NoMethodError), and on a primitive's Ruby lambda `[]` is a call
    with one argument, which the two-argument lambdas refuse (ArgumentError) and `cdr`
    fails on (`0.length`).  So, with `DEBUG` off, evaluation still aborts whenever an
    application's arguments or an environment's own frames hold such a value.

    This module states that behaviour for one call of `_eval` and of `apply`.  The
    evaluator of module Semantics, which the rest of the model uses, leaves logging out,
    as the authors evidently intended. */
module Logging {
  import opened Values
  import opened Primitives
  import opened Environment
  import opened Semantics

  /** Whether `λ[0]`, a call of the primitive's Ruby lambda with the argument 0, raises:
      `null?`, `car` and `list` accept it. */
  predicate PrimRaisesOnZero(op: PrimOp)
  {
    op !in {NullP, CarOp, ListOp}
  }

  /** Whether `pp(v)` raises.  A closure, and an array headed `:closure` or `:lambda`,
      prints only its parameters and body; `[:prim, λ]` prints `:prim` and then `λ`; any
      other array prints every element. */
  predicate PpRaises(v: Value)
  {
    match v
    case Bool(_) => true
    case Prim(op) => PrimRaisesOnZero(op)
    case Closure(params, body, _) => PpRaises(params) || PpRaises(body)
    case List(items) =>
      if |items| > 0 && (items[0] == Sym("closure") || items[0] == Sym("lambda"))
      then (|items| > 1 && PpRaises(items[1])) || (|items| > 2 && PpRaises(items[2]))
      else exists i | 0 <= i < |items| :: PpRaises(items[i])
    case _ => false
  }

  /** `$list_env`, `$primitive_fun_env` and `$boolean_env`: the frames the global store
      allocates first, with their present contents. */
  function GlobalFrames(s: Store): seq<map<Value, Value>>
  {
    [FrameAt(s, 0), FrameAt(s, 1), FrameAt(s, 2)]
  }

  /** Whether `pp` raises on a frame.  A hash is first asked `h[0] == :lambda`; a hash
      equal to one of the three global hashes prints as its name; any other prints every
      key and value. */
  predicate PpFrameRaises(m: map<Value, Value>, globals: seq<map<Value, Value>>)
  {
    if Num(0) in m && m[Num(0)] == Sym("lambda")
    then (Num(1) in m && PpRaises(m[Num(1)])) || (Num(2) in m && PpRaises(m[Num(2)]))
    else if m in globals then false
    else exists k | k in m :: PpRaises(k) || PpRaises(m[k])
  }

  /** Whether `pp(env)` raises: the environment prints frame by frame. */
  predicate PpEnvRaises(env: EnvId, s: Store)
  {
    exists i | 0 <= i < |Chain(s, env)| :: PpFrameRaises(Chain(s, env)[i], GlobalFrames(s))
  }

  /** `_eval` as written: `pp(exp)` and `pp(env)` are computed before anything else, so
      either raising aborts the call; otherwise the call goes on as `Semantics.Eval`. */
  function EvalAsWritten(exp: Value, env: EnvId, s: Store, fuel: nat): Outcome<Value>
  {
    if PpRaises(exp) || PpEnvRaises(env, s) then Outcome(Err(LogFailed), s)
    else Eval(exp, env, s, fuel)
  }

  /** `apply` as written: `pp(args)` is computed before the function is looked at. */
  function ApplyAsWritten(fun: Value, args: seq<Value>, s: Store, fuel: nat): Outcome<Value>
  {
    if PpRaises(List(args)) then Outcome(Err(LogFailed), s)
    else Apply(fun, args, s, fuel)
  }

  /** Every application whose arguments hold a boolean (the first argument not being the
      symbol `closure` or `lambda`) aborts in `apply` as written, whatever the function. */
  lemma ApplyAsWrittenRaisesOnBoolean(fun: Value, args: seq<Value>, i: nat, s: Store, fuel: nat)
    requires i < |args| && args[i].Bool?
    requires args[0] != Sym("closure") && args[0] != Sym("lambda")
    ensures ApplyAsWritten(fun, args, s, fuel) == Outcome(Err(LogFailed), s)
  {
    assert PpRaises(args[i]);
  }

  /** The function `(lambda (x) x)` made in environment `env`. */
  function IdentityClosure(env: EnvId): Value
  {
    Closure(List([Sym("x")]), Sym("x"), env)
  }

  /** `((lambda (x) x) (> 3 2))` reaches `apply` with the argument list `[true]`: the
      evaluator gives `true`, and `apply` as written raises instead. */
  lemma ApplyOfBooleanDiffers(env: EnvId, s: Store, fuel: nat)
    requires ChainAllocated(s, env) && fuel > 0
    ensures Apply(IdentityClosure(env), [Bool(true)], s, fuel).result == Ok(Bool(true))
    ensures ApplyAsWritten(IdentityClosure(env), [Bool(true)], s, fuel).result == Err(LogFailed)
  {
    var c := IdentityClosure(env);
    var (e, t) := ExtendEnv([Sym("x")], [Bool(true)], env, s);
    ExtendEnvChains([Sym("x")], [Bool(true)], env, s);
    var m := Bind(map[], [Sym("x")], [Bool(true)]);
    assert m == map[Sym("x") := Bool(true)];
    LookupShadowing(Sym("x"), m, Chain(s, env));
    assert Apply(c, [Bool(true)], s, fuel) == Eval(Sym("x"), e, t, fuel);
    ApplyAsWrittenRaisesOnBoolean(c, [Bool(true)], 0, s, fuel);
  }

  /** After `(define t true)` in `$global_env` (a frame `{t => true}` unshifted into
      environment 0, where the three global frames bind no `t`), every `_eval` in
      environment 0 aborts as written, even that of the number 1, which the evaluator
      gives back unchanged. */
  lemma EvalAfterBooleanDefineDiffers(s: Store, fuel: nat)
    requires WellFormed(s) && 0 < |s.chains| && fuel > 0
    requires 3 <= |s.frames| && forall id | 0 <= id < 3 :: Sym("t") !in s.frames[id]
    ensures Eval(Num(1), 0, ExtendEnvQ([Sym("t")], [Bool(true)], 0, s), fuel).result == Ok(Num(1))
    ensures EvalAsWritten(Num(1), 0, ExtendEnvQ([Sym("t")], [Bool(true)], 0, s), fuel).result == Err(LogFailed)
  {
    BooleanFramePrintRaises(s);
  }

  /** `pp` of environment 0 raises once `{t => true}` is unshifted into it. */
  lemma BooleanFramePrintRaises(s: Store)
    requires WellFormed(s) && 0 < |s.chains|
    requires 3 <= |s.frames| && forall id | 0 <= id < 3 :: Sym("t") !in s.frames[id]
    ensures PpEnvRaises(0, ExtendEnvQ([Sym("t")], [Bool(true)], 0, s))
  {
    var t := ExtendEnvQ([Sym("t")], [Bool(true)], 0, s);
    var m := Bind(map[], [Sym("t")], [Bool(true)]);
    assert m == map[Sym("t") := Bool(true)];
    ExtendEnvQChain([Sym("t")], [Bool(true)], 0, s);
    assert Chain(t, 0)[0] == m;
    assert GlobalFrames(t) == [s.frames[0], s.frames[1], s.frames[2]];
    FramePrintRaises(m, Sym("t"), GlobalFrames(t));
  }

  /** A frame that is none of the global ones and binds some name to a boolean cannot be
      printed. */
  lemma FramePrintRaises(m: map<Value, Value>, k: Value, globals: seq<map<Value, Value>>)
    requires k in m && m[k].Bool? && Num(0) !in m
    requires forall i | 0 <= i < |globals| :: k !in globals[i]
    ensures PpFrameRaises(m, globals)
  {
    assert PpRaises(m[k]);
  }
}
