/** Programs of the source's own test table.  Each is evaluated in any environment that
    sees the built-in names it uses; the `...Test` lemmas then place it in environment 0
    of a store whose environment 0 is `$global_env`. */
module TestVectors {
  import opened Values
  import opened ListPrimitives
  import opened Primitives
  import opened Environment
  import opened SpecialForms
  import opened Semantics
  import opened SemanticsLemmas
  import opened StoreInvariant
  import opened FactorialProgram

  const GlobalChain: seq<map<Value, Value>> := [ListFrame, PrimitiveFunFrame, BooleanFrame]

  /** A store whose environment 0 is `$global_env`, as before the first test runs. */
  ghost predicate Initial(s: Store)
  {
    WellFormed(s) && 0 < |s.chains| && Chain(s, 0) == GlobalChain
  }

  lemma InitialStore()
    ensures Initial(GlobalStore())
  {
  }

  /** A name `$list_env` lacks is looked up in `$primitive_fun_env`. */
  lemma PrimitiveFunLookup(name: Value)
    requires name !in ListFrame && name in PrimitiveFunFrame
    ensures LookupVar(name, GlobalChain) == Ok(PrimitiveFunFrame[name])
  {
    GlobalValuesNotNil();
    assert GlobalChain == [ListFrame] + GlobalChain[1..];
    assert GlobalChain[1..] == [PrimitiveFunFrame] + GlobalChain[2..];
    LookupShadowing(name, ListFrame, GlobalChain[1..]);
    LookupShadowing(name, PrimitiveFunFrame, GlobalChain[2..]);
  }

  lemma AddBuiltin()
    ensures LookupVar(Sym("+"), GlobalChain) == Ok(Prim(Add))
  {
    PrimitiveFunLookup(Sym("+"));
  }

  lemma SubBuiltin()
    ensures LookupVar(Sym("-"), GlobalChain) == Ok(Prim(Sub))
  {
    PrimitiveFunLookup(Sym("-"));
  }

  lemma MulBuiltin()
    ensures LookupVar(Sym("*"), GlobalChain) == Ok(Prim(Mul))
  {
    PrimitiveFunLookup(Sym("*"));
  }

  lemma ComparisonBuiltins()
    ensures LookupVar(Sym("<"), GlobalChain) == Ok(Prim(Lt))
    ensures LookupVar(Sym(">"), GlobalChain) == Ok(Prim(Gt))
  {
    PrimitiveFunLookup(Sym("<"));
    PrimitiveFunLookup(Sym(">"));
  }

  lemma ListAndBooleanBuiltins()
    ensures LookupVar(Sym("list"), GlobalChain) == Ok(Prim(ListOp))
    ensures LookupVar(Sym("true"), GlobalChain) == Ok(Bool(true))
  {
    assert GlobalChain == [ListFrame] + GlobalChain[1..];
    assert GlobalChain[1..] == [PrimitiveFunFrame] + GlobalChain[2..];
    assert GlobalChain[2..] == [BooleanFrame];
    LookupShadowing(Sym("true"), ListFrame, GlobalChain[1..]);
    LookupShadowing(Sym("true"), PrimitiveFunFrame, GlobalChain[2..]);
  }

  /** An application whose head and arguments evaluate without changing the store is the
      application of their values. */
  lemma EvalCall(exp: Value, f: Value, args: seq<Value>, env: EnvId, s: Store, t: Store, fuel: nat)
    requires fuel > 0 && exp.List? && |exp.items| > 0 && SpecialFormOf(exp).None?
    requires Eval(exp.items[0], env, s, fuel - 1) == Outcome(Ok(f), s)
    requires EvalEach(exp.items[1..], env, s, fuel - 1) == Outcome(Ok(args), t)
    ensures Eval(exp, env, s, fuel) == Apply(f, args, t, fuel - 1)
  {
    EvalApplicationOrder(exp, env, s, fuel);
  }

  /** A single expression, evaluated as an argument list. */
  lemma EvalEachOne(e: Value, v: Value, env: EnvId, s: Store, t: Store, fuel: nat)
    requires Eval(e, env, s, fuel) == Outcome(Ok(v), t)
    ensures EvalEach([e], env, s, fuel) == Outcome(Ok([v]), t)
  {
    assert [e][1..] == [];
    assert EvalEach([], env, t, fuel) == Outcome(Ok([]), t);
    assert [v] + [] == [v];
  }

  /** Two expressions that change nothing, evaluated as an argument list. */
  lemma EvalEachTwo(x: Value, y: Value, vx: Value, vy: Value, env: EnvId, s: Store, t: Store, fuel: nat)
    requires Eval(x, env, s, fuel) == Outcome(Ok(vx), s)
    requires Eval(y, env, s, fuel) == Outcome(Ok(vy), t)
    ensures EvalEach([x, y], env, s, fuel) == Outcome(Ok([vx, vy]), t)
  {
    assert [x, y][1..] == [y];
    EvalEachOne(y, vy, env, s, t, fuel);
    assert [vx] + [vy] == [vx, vy];
  }

  /** `(op x y)` where `op` is bound to the primitive `p` and `x`, `y` evaluate to the
      numbers `a`, `b` without changing the store. */
  lemma EvalBinary(op: Value, p: PrimOp, x: Value, y: Value, a: int, b: int, env: EnvId, s: Store, t: Store, fuel: nat)
    requires fuel >= 2 && op.Sym? && SpecialFormOf(List([op, x, y])).None?
    requires LookupVar(op, Chain(s, env)) == Ok(Prim(p))
    requires Eval(x, env, s, fuel - 1) == Outcome(Ok(Num(a)), s)
    requires Eval(y, env, s, fuel - 1) == Outcome(Ok(Num(b)), t)
    ensures Eval(List([op, x, y]), env, s, fuel) == Outcome(ApplyPrimitiveFun(p, [Num(a), Num(b)]), t)
  {
    var c := List([op, x, y]);
    assert c.items[1..] == [x, y];
    EvalEachTwo(x, y, Num(a), Num(b), env, s, t, fuel - 1);
    EvalCall(c, Prim(p), [Num(a), Num(b)], env, s, t, fuel);
  }

  /** `if` whose condition evaluates to `v` without changing the store takes the branch
      `v`'s truthiness picks. */
  lemma EvalIfOn(c: Value, th: Value, el: Value, v: Value, env: EnvId, s: Store, fuel: nat)
    requires fuel > 0 && Eval(c, env, s, fuel - 1) == Outcome(Ok(v), s)
    ensures Eval(List([Sym("if"), c, th, el]), env, s, fuel) ==
      if Truthy(v) then Eval(th, env, s, fuel - 1) else Eval(el, env, s, fuel - 1)
  {
    EvalIfForm(c, th, el, env, s, fuel);
  }

  // ---------------------------------------------------------------- if, list

  /** `(if (> 3 2) 1 0)` gives 1. */
  lemma IfIn(env: EnvId, s: Store, fuel: nat)
    requires LookupVar(Sym(">"), Chain(s, env)) == Ok(Prim(Gt)) && fuel >= 3
    ensures Eval(List([Sym("if"), List([Sym(">"), Num(3), Num(2)]), Num(1), Num(0)]), env, s, fuel).result == Ok(Num(1))
  {
    var c := List([Sym(">"), Num(3), Num(2)]);
    assert SpecialFormOf(c).None?;
    EvalBinary(Sym(">"), Gt, Num(3), Num(2), 3, 2, env, s, s, fuel - 1);
    EvalIfOn(c, Num(1), Num(0), Bool(true), env, s, fuel);
  }

  lemma IfTest(s: Store, fuel: nat)
    requires Initial(s) && fuel >= 3
    ensures Eval(List([Sym("if"), List([Sym(">"), Num(3), Num(2)]), Num(1), Num(0)]), 0, s, fuel).result == Ok(Num(1))
  {
    ComparisonBuiltins();
    IfIn(0, s, fuel);
  }

  /** `(list 1)` gives `[1]`. */
  lemma ListIn(env: EnvId, s: Store, fuel: nat)
    requires LookupVar(Sym("list"), Chain(s, env)) == Ok(Prim(ListOp)) && fuel >= 2
    ensures Eval(List([Sym("list"), Num(1)]), env, s, fuel).result == Ok(List([Num(1)]))
  {
    var c := List([Sym("list"), Num(1)]);
    assert c.items[1..] == [Num(1)];
    EvalEachNumbers([Num(1)], env, s, fuel - 1);
    EvalCall(c, Prim(ListOp), [Num(1)], env, s, s, fuel);
  }

  lemma ListTest(s: Store, fuel: nat)
    requires Initial(s) && fuel >= 2
    ensures Eval(List([Sym("list"), Num(1)]), 0, s, fuel).result == Ok(List([Num(1)]))
  {
    ListAndBooleanBuiltins();
    ListIn(0, s, fuel);
  }

  // ---------------------------------------------------------------- let

  /** `(+ x y)` where `x` is 2 and `y` is 3. */
  lemma AddXY(e: EnvId, t: Store, fuel: nat)
    requires fuel >= 2
    requires LookupVar(Sym("+"), Chain(t, e)) == Ok(Prim(Add))
    requires LookupVar(Sym("x"), Chain(t, e)) == Ok(Num(2))
    requires LookupVar(Sym("y"), Chain(t, e)) == Ok(Num(3))
    ensures Eval(List([Sym("+"), Sym("x"), Sym("y")]), e, t, fuel).result == Ok(Num(5))
  {
    assert SpecialFormOf(List([Sym("+"), Sym("x"), Sym("y")])).None?;
    EvalBinary(Sym("+"), Add, Sym("x"), Sym("y"), 2, 3, e, t, t, fuel);
  }

  /** The frame `{x => 2, y => 3}` in front of a chain that binds `+`. */
  lemma LetFrameLookups(m: map<Value, Value>, chain: seq<map<Value, Value>>)
    requires m == map[Sym("x") := Num(2), Sym("y") := Num(3)]
    requires LookupVar(Sym("+"), chain) == Ok(Prim(Add))
    ensures LookupVar(Sym("+"), [m] + chain) == Ok(Prim(Add))
    ensures LookupVar(Sym("x"), [m] + chain) == Ok(Num(2))
    ensures LookupVar(Sym("y"), [m] + chain) == Ok(Num(3))
  {
    LookupShadowing(Sym("+"), m, chain);
    LookupShadowing(Sym("x"), m, chain);
    LookupShadowing(Sym("y"), m, chain);
  }

  /** `(let ((x 2) (y 3)) body)` evaluates `body` in the environment `extend_env` makes
      from `[x, y]` and `[2, 3]`. */
  lemma LetXY(body: Value, env: EnvId, s: Store, fuel: nat)
    requires fuel >= 3
    ensures
      Eval(List([Sym("let"), List([List([Sym("x"), Num(2)]), List([Sym("y"), Num(3)])]), body]), env, s, fuel)
        == Eval(body, ExtendEnv([Sym("x"), Sym("y")], [Num(2), Num(3)], env, s).0,
                ExtendEnv([Sym("x"), Sym("y")], [Num(2), Num(3)], env, s).1, fuel - 2)
  {
    var params := [Sym("x"), Sym("y")];
    var inits := [Num(2), Num(3)];
    assert seq(|params|, i requires 0 <= i < |params| => List([params[i], inits[i]]))
      == [List([Sym("x"), Num(2)]), List([Sym("y"), Num(3)])];
    EvalEachNumbers(inits, env, s, fuel - 2);
    LetOnValues(params, inits, inits, body, env, s, fuel);
  }

  /** A `let` whose initialisers evaluate to `vals` without changing the store evaluates
      its body in the environment `extend_env` makes from the names and `vals`. */
  lemma LetOnValues(params: seq<Value>, inits: seq<Value>, vals: seq<Value>, body: Value, env: EnvId, s: Store, fuel: nat)
    requires fuel >= 3 && |inits| == |params|
    requires EvalEach(inits, env, s, fuel - 2) == Outcome(Ok(vals), s)
    ensures
      Eval(List([Sym("let"), List(seq(|params|, i requires 0 <= i < |params| => List([params[i], inits[i]]))), body]), env, s, fuel)
        == Eval(body, ExtendEnv(params, vals, env, s).0, ExtendEnv(params, vals, env, s).1, fuel - 2)
  {
    EvalLetSpec(params, inits, body, env, s, fuel);
  }

  /** The frame `extend_env` makes from `[x, y]` and `[2, 3]`. */
  lemma ExtendXY(env: EnvId, s: Store)
    requires ChainAllocated(s, env)
    ensures
      var (e1, s1) := ExtendEnv([Sym("x"), Sym("y")], [Num(2), Num(3)], env, s);
      Chain(s1, e1) == [map[Sym("x") := Num(2), Sym("y") := Num(3)]] + Chain(s, env)
  {
    ExtendEnvChains([Sym("x"), Sym("y")], [Num(2), Num(3)], env, s);
    assert Bind(map[], [Sym("x"), Sym("y")], [Num(2), Num(3)]) == map[Sym("x") := Num(2), Sym("y") := Num(3)];
  }

  /** `(let ((x 2) (y 3)) (+ x y))` gives 5. */
  lemma LetIn(env: EnvId, s: Store, fuel: nat)
    requires ChainAllocated(s, env) && fuel >= 4
    requires LookupVar(Sym("+"), Chain(s, env)) == Ok(Prim(Add))
    ensures Eval(List([Sym("let"), List([List([Sym("x"), Num(2)]), List([Sym("y"), Num(3)])]),
                       List([Sym("+"), Sym("x"), Sym("y")])]), env, s, fuel).result == Ok(Num(5))
  {
    LetXY(List([Sym("+"), Sym("x"), Sym("y")]), env, s, fuel);
    LetBodyXY(env, s, fuel - 2);
  }

  /** The body `(+ x y)` gives 5 in the frame `{x => 2, y => 3}` in front of `env`. */
  lemma LetBodyXY(env: EnvId, s: Store, fuel: nat)
    requires ChainAllocated(s, env) && fuel >= 2
    requires LookupVar(Sym("+"), Chain(s, env)) == Ok(Prim(Add))
    ensures
      Eval(List([Sym("+"), Sym("x"), Sym("y")]), ExtendEnv([Sym("x"), Sym("y")], [Num(2), Num(3)], env, s).0,
           ExtendEnv([Sym("x"), Sym("y")], [Num(2), Num(3)], env, s).1, fuel).result == Ok(Num(5))
  {
    ExtendXY(env, s);
    var (e1, s1) := ExtendEnv([Sym("x"), Sym("y")], [Num(2), Num(3)], env, s);
    LetFrameLookups(map[Sym("x") := Num(2), Sym("y") := Num(3)], Chain(s, env));
    AddXY(e1, s1, fuel);
  }

  lemma LetTest(s: Store, fuel: nat)
    requires Initial(s) && fuel >= 4
    ensures Eval(List([Sym("let"), List([List([Sym("x"), Num(2)]), List([Sym("y"), Num(3)])]),
                       List([Sym("+"), Sym("x"), Sym("y")])]), 0, s, fuel).result == Ok(Num(5))
  {
    AddBuiltin();
    LetIn(0, s, fuel);
  }

  // ---------------------------------------------------------------- cond

  /** `cond_to_if`'s reading of the clauses of the cond test: `else` becomes `true`. */
  lemma CondTestClauses(test: Value, clauses: seq<Value>)
    requires test != Sym("else")
    requires clauses == [List([test, Num(0)]), List([test, Num(1)]), List([Sym("else"), Num(1)])]
    ensures forall i | 0 <= i < |clauses| :: Index(clauses[i], 0).Ok?
    ensures NormalClauses(clauses) == [(test, Num(0)), (test, Num(1)), (Sym("true"), Num(1))]
  {
    assert NormalClause(clauses[2]) == (Sym("true"), Num(1));
  }

  /** `(< 2 1)` is false and changes nothing. */
  lemma LessIn(env: EnvId, s: Store, fuel: nat)
    requires LookupVar(Sym("<"), Chain(s, env)) == Ok(Prim(Lt)) && fuel >= 2
    ensures Eval(List([Sym("<"), Num(2), Num(1)]), env, s, fuel) == Outcome(Ok(Bool(false)), s)
  {
    assert SpecialFormOf(List([Sym("<"), Num(2), Num(1)])).None?;
    EvalBinary(Sym("<"), Lt, Num(2), Num(1), 2, 1, env, s, s, fuel);
  }

  /** The last two clauses of the cond test: a false test, then `else`. */
  lemma CondTestTail(test: Value, env: EnvId, s: Store, fuel: nat)
    requires LookupVar(Sym("true"), Chain(s, env)) == Ok(Bool(true)) && fuel >= 3
    requires Eval(test, env, s, fuel) == Outcome(Ok(Bool(false)), s)
    ensures CondClauses([(test, Num(1)), (Sym("true"), Num(1))], env, s, fuel).result == Ok(Num(1))
  {
    assert Eval(Sym("true"), env, s, fuel - 1) == Outcome(Ok(Bool(true)), s);
    var rest := [(test, Num(1)), (Sym("true"), Num(1))];
    assert rest[1..] == [(Sym("true"), Num(1))];
    assert CondClauses(rest[1..], env, s, fuel - 1) == Outcome(Ok(Num(1)), s);
  }

  /** All three clauses of the cond test: two false tests, then `else`. */
  lemma CondTestClausesEval(test: Value, env: EnvId, s: Store, fuel: nat)
    requires LookupVar(Sym("true"), Chain(s, env)) == Ok(Bool(true)) && fuel >= 4
    requires Eval(test, env, s, fuel) == Outcome(Ok(Bool(false)), s)
    requires Eval(test, env, s, fuel - 1) == Outcome(Ok(Bool(false)), s)
    ensures CondClauses([(test, Num(0)), (test, Num(1)), (Sym("true"), Num(1))], env, s, fuel).result == Ok(Num(1))
  {
    var normal := [(test, Num(0)), (test, Num(1)), (Sym("true"), Num(1))];
    assert normal[1..] == [(test, Num(1)), (Sym("true"), Num(1))];
    CondTestTail(test, env, s, fuel - 1);
  }

  /** `(cond ((< 2 1) 0) ((< 2 1) 1) (else 1))` gives 1. */
  lemma CondIn(env: EnvId, s: Store, fuel: nat)
    requires LookupVar(Sym("<"), Chain(s, env)) == Ok(Prim(Lt)) && fuel >= 5
    requires LookupVar(Sym("true"), Chain(s, env)) == Ok(Bool(true))
    ensures Eval(List([Sym("cond"),
                       List([List([Sym("<"), Num(2), Num(1)]), Num(0)]),
                       List([List([Sym("<"), Num(2), Num(1)]), Num(1)]),
                       List([Sym("else"), Num(1)])]), env, s, fuel).result == Ok(Num(1))
  {
    LessIn(env, s, fuel - 1);
    LessIn(env, s, fuel - 2);
    CondFalseFalseElse(List([Sym("<"), Num(2), Num(1)]), env, s, fuel);
  }

  /** The cond test with its test `(< 2 1)` left abstract: any list that is false twice. */
  lemma CondFalseFalseElse(test: Value, env: EnvId, s: Store, fuel: nat)
    requires fuel >= 5 && test.List?
    requires LookupVar(Sym("true"), Chain(s, env)) == Ok(Bool(true))
    requires Eval(test, env, s, fuel - 1) == Outcome(Ok(Bool(false)), s)
    requires Eval(test, env, s, fuel - 2) == Outcome(Ok(Bool(false)), s)
    ensures Eval(List([Sym("cond"), List([test, Num(0)]), List([test, Num(1)]), List([Sym("else"), Num(1)])]),
                 env, s, fuel).result == Ok(Num(1))
  {
    var clauses := [List([test, Num(0)]), List([test, Num(1)]), List([Sym("else"), Num(1)])];
    assert [Sym("cond")] + clauses == [Sym("cond"), List([test, Num(0)]), List([test, Num(1)]), List([Sym("else"), Num(1)])];
    CondTestClauses(test, clauses);
    CondTestClausesEval(test, env, s, fuel - 1);
    EvalCondPicksFirstTrue(clauses, env, s, fuel);
  }

  lemma CondTest(s: Store, fuel: nat)
    requires Initial(s) && fuel >= 5
    ensures Eval(List([Sym("cond"),
                       List([List([Sym("<"), Num(2), Num(1)]), Num(0)]),
                       List([List([Sym("<"), Num(2), Num(1)]), Num(1)]),
                       List([Sym("else"), Num(1)])]), 0, s, fuel).result == Ok(Num(1))
  {
    ComparisonBuiltins();
    ListAndBooleanBuiltins();
    CondIn(0, s, fuel);
  }

  // ---------------------------------------------------------------- define

  /** `(lambda (x) x)` made in environment `env`. */
  function IdClosure(env: EnvId): Value
  {
    Closure(List([Sym("x")]), Sym("x"), env)
  }

  /** No frame of `$global_env` has the name `id`. */
  lemma IdUnbound(s: Store)
    requires Initial(s)
    ensures LookupVarRef(Sym("id"), s, 0).None?
  {
    assert Sym("id") !in ListFrame && Sym("id") !in PrimitiveFunFrame && Sym("id") !in BooleanFrame;
  }

  /** `(define (id x) x)` of a name no frame owns unshifts `{id => closure}` into `env`
      and gives nil. */
  lemma DefineIdEval(env: EnvId, s: Store, fuel: nat)
    requires LookupVarRef(Sym("id"), s, env).None? && fuel >= 2
    ensures Eval(List([Sym("define"), List([Sym("id"), Sym("x")]), Sym("x")]), env, s, fuel)
         == Outcome(Ok(Nil), ExtendEnvQ([Sym("id")], [IdClosure(env)], env, s))
  {
    var lam := List([Sym("lambda"), List([Sym("x")]), Sym("x")]);
    var long := List([Sym("define"), Sym("id"), lam]);
    DefineShorthand(Sym("id"), [Sym("x")], Sym("x"), env, s, fuel);
    assert [Sym("id")] + [Sym("x")] == [Sym("id"), Sym("x")];
    assert SpecialFormOf(long) == Some(Define);
    assert DefineParts(long) == (Sym("id"), lam);
    EvalLambda(List([Sym("x")]), Sym("x"), env, s, fuel - 1);
    assert Eval(long, env, s, fuel) == EvalDefine(long, env, s, fuel - 1);
  }

  /** After that `define`, `id` names the closure in `env`. */
  lemma DefineIdStore(env: EnvId, s: Store)
    requires WellFormed(s) && env < |s.chains|
    ensures
      var t := ExtendEnvQ([Sym("id")], [IdClosure(env)], env, s);
      WellFormed(t) && env < |t.chains| && LookupVar(Sym("id"), Chain(t, env)) == Ok(IdClosure(env))
  {
    var c := IdClosure(env);
    assert Within(List([Sym("x")]), |s.chains|);
    assert AllWithin([c], |s.chains|);
    ExtendEnvQKeeps([Sym("id")], [c], env, s);
    ExtendEnvQChain([Sym("id")], [c], env, s);
    assert Bind(map[], [Sym("id")], [c]) == map[Sym("id") := c];
    LookupShadowing(Sym("id"), map[Sym("id") := c], Chain(s, env));
  }

  /** The `id` closure applied to 3 gives 3. */
  lemma IdClosureApplied(env: EnvId, t: Store, fuel: nat)
    requires WellFormed(t) && env < |t.chains| && fuel >= 1
    ensures Apply(IdClosure(env), [Num(3)], t, fuel).result == Ok(Num(3))
  {
    ApplySpec(IdClosure(env), [Num(3)], t, fuel);
    ExtendEnvChains([Sym("x")], [Num(3)], env, t);
    var m := Bind(map[], [Sym("x")], [Num(3)]);
    assert m == map[Sym("x") := Num(3)];
    LookupShadowing(Sym("x"), m, Chain(t, env));
  }

  /** `(id 3)` where `id` names a closure that gives 3 on 3. */
  lemma IdApplied(env: EnvId, t: Store, fuel: nat)
    requires fuel >= 2 && LookupVar(Sym("id"), Chain(t, env)) == Ok(IdClosure(env))
    requires Apply(IdClosure(env), [Num(3)], t, fuel - 1).result == Ok(Num(3))
    ensures Eval(List([Sym("id"), Num(3)]), env, t, fuel).result == Ok(Num(3))
  {
    var app := List([Sym("id"), Num(3)]);
    assert app.items[1..] == [Num(3)];
    EvalEachNumbers([Num(3)], env, t, fuel - 1);
    EvalCall(app, IdClosure(env), [Num(3)], env, t, t, fuel);
  }

  /** In any well-formed store where `id` names the closure, `(id 3)` gives 3. */
  lemma IdCall(env: EnvId, t: Store, fuel: nat)
    requires WellFormed(t) && env < |t.chains| && fuel >= 2
    requires LookupVar(Sym("id"), Chain(t, env)) == Ok(IdClosure(env))
    ensures Eval(List([Sym("id"), Num(3)]), env, t, fuel).result == Ok(Num(3))
  {
    IdClosureApplied(env, t, fuel - 1);
    IdApplied(env, t, fuel);
  }

  /** `(define (id x) x)` gives nil, and then `(id 3)` gives 3. */
  lemma DefineIdIn(env: EnvId, s: Store, fuel: nat)
    requires WellFormed(s) && env < |s.chains| && fuel >= 2
    requires LookupVarRef(Sym("id"), s, env).None?
    ensures
      var o := Eval(List([Sym("define"), List([Sym("id"), Sym("x")]), Sym("x")]), env, s, fuel);
      o.result == Ok(Nil) && Eval(List([Sym("id"), Num(3)]), env, o.store, fuel).result == Ok(Num(3))
  {
    DefineIdEval(env, s, fuel);
    DefineIdStore(env, s);
    var t := ExtendEnvQ([Sym("id")], [IdClosure(env)], env, s);
    IdCall(env, t, fuel);
  }

  lemma DefineIdTest(s: Store, fuel: nat)
    requires Initial(s) && fuel >= 2
    ensures
      var o := Eval(List([Sym("define"), List([Sym("id"), Sym("x")]), Sym("x")]), 0, s, fuel);
      o.result == Ok(Nil) && Eval(List([Sym("id"), Num(3)]), 0, o.store, fuel).result == Ok(Num(3))
  {
    IdUnbound(s);
    DefineIdIn(0, s, fuel);
  }

  // ---------------------------------------------------------------- setq

  /** `(setq x 2)` where the innermost frame of `e` has `x`: that frame gets 2, and the
      result is nil. */
  lemma SetqEval(t: Store, e: EnvId, fuel: nat)
    requires fuel >= 2 && |ChainIds(t, e)| > 0 && Sym("x") in Chain(t, e)[0]
    ensures Eval(List([Sym("setq"), Sym("x"), Num(2)]), e, t, fuel)
         == Outcome(Ok(Nil), Assign(t, ChainIds(t, e)[0], Sym("x"), Num(2)))
  {
    var exp := List([Sym("setq"), Sym("x"), Num(2)]);
    assert LookupVarRef(Sym("x"), t, e) == Some(ChainIds(t, e)[0]);
    assert SpecialFormOf(exp) == Some(Setq);
    assert Eval(exp, e, t, fuel) == EvalSetq(exp, e, t, fuel - 1);
    assert SetqParts(exp) == (Sym("x"), Num(2));
  }

  /** After that assignment `x` is 2 in `e`, whatever frames lie behind the innermost. */
  lemma AssignInnermost(t: Store, e: EnvId)
    requires |ChainIds(t, e)| > 0 && ChainIds(t, e)[0] < |t.frames| && Sym("x") in Chain(t, e)[0]
    ensures LookupVar(Sym("x"), Chain(Assign(t, ChainIds(t, e)[0], Sym("x"), Num(2)), e)) == Ok(Num(2))
  {
    var r := Assign(t, ChainIds(t, e)[0], Sym("x"), Num(2));
    var c := Chain(r, e);
    assert ChainIds(r, e) == ChainIds(t, e);
    assert c[0] == Chain(t, e)[0][Sym("x") := Num(2)];
    assert c == [c[0]] + c[1..];
    LookupShadowing(Sym("x"), c[0], c[1..]);
  }

  /** `(let ((dummy (setq x 2))) x)` evaluates `x` in a new frame `{dummy => nil}` in front
      of `e`, over the store the `setq` left. */
  lemma InnerLetEval(e: EnvId, t: Store, u: Store, fuel: nat)
    requires fuel >= 3
    requires Eval(List([Sym("setq"), Sym("x"), Num(2)]), e, t, fuel - 2) == Outcome(Ok(Nil), u)
    ensures Eval(List([Sym("let"), List([List([Sym("dummy"), List([Sym("setq"), Sym("x"), Num(2)])])]), Sym("x")]), e, t, fuel)
         == Eval(Sym("x"), ExtendEnv([Sym("dummy")], [Nil], e, u).0, ExtendEnv([Sym("dummy")], [Nil], e, u).1, fuel - 2)
  {
    EvalLetOne(Sym("dummy"), List([Sym("setq"), Sym("x"), Num(2)]), Nil, Sym("x"), e, t, u, fuel);
  }

  /** The binding list `((name init))` has the one name `name` and the one initialiser `init`. */
  lemma OneBindingParts(name: Value, init: Value)
    ensures BindingParts([List([name, init])]) == Ok(([name], [init]))
  {
    var b := List([name, init]);
    assert Index(b, 0) == Ok(name) && Index(b, 1) == Ok(init);
    assert [b][1..] == [];
    assert BindingParts([]) == Ok(([], []));
    assert [name] + [] == [name] && [init] + [] == [init];
  }

  /** A `let` of one name: the initialiser evaluated, then the body in a new frame
      `{name => value}` in front of `env`, over the store the initialiser left. */
  lemma EvalLetOne(name: Value, init: Value, v: Value, body: Value, env: EnvId, s: Store, u: Store, fuel: nat)
    requires fuel >= 3
    requires Eval(init, env, s, fuel - 2) == Outcome(Ok(v), u)
    ensures Eval(List([Sym("let"), List([List([name, init])]), body]), env, s, fuel)
         == Eval(body, ExtendEnv([name], [v], env, u).0, ExtendEnv([name], [v], env, u).1, fuel - 2)
  {
    var exp := List([Sym("let"), List([List([name, init])]), body]);
    assert SpecialFormOf(exp) == Some(Let);
    OneBindingParts(name, init);
    assert LetToParametersArgsBody(exp) == Ok(LetParts([name], [init], body));
    EvalLetParts(exp, [name], [init], body, env, s, fuel);
    EvalEachOne(init, v, env, s, u, fuel - 2);
  }

  /** The frame `{dummy => nil}` does not hide `x`. */
  lemma ExtendDummy(e: EnvId, u: Store)
    requires WellFormed(u) && e < |u.chains|
    ensures LookupVar(Sym("x"), Chain(ExtendEnv([Sym("dummy")], [Nil], e, u).1, ExtendEnv([Sym("dummy")], [Nil], e, u).0))
         == LookupVar(Sym("x"), Chain(u, e))
  {
    ExtendEnvChains([Sym("dummy")], [Nil], e, u);
    var m := Bind(map[], [Sym("dummy")], [Nil]);
    assert m == map[Sym("dummy") := Nil];
    LookupShadowing(Sym("x"), m, Chain(u, e));
  }

  /** The inner `let` of the setq test, where the innermost frame of `e` has `x`. */
  lemma InnerLetSees(e: EnvId, t: Store, fuel: nat)
    requires WellFormed(t) && e < |t.chains| && fuel >= 4
    requires |ChainIds(t, e)| > 0 && Sym("x") in Chain(t, e)[0]
    ensures Eval(List([Sym("let"), List([List([Sym("dummy"), List([Sym("setq"), Sym("x"), Num(2)])])]), Sym("x")]),
                 e, t, fuel).result == Ok(Num(2))
  {
    var id := ChainIds(t, e)[0];
    SetqEval(t, e, fuel - 2);
    var u := Assign(t, id, Sym("x"), Num(2));
    AssignKeeps(t, id, Sym("x"), Num(2));
    AssignInnermost(t, e);
    InnerLetEval(e, t, u, fuel);
    ExtendDummy(e, u);
    var (e2, u2) := ExtendEnv([Sym("dummy")], [Nil], e, u);
    EvalAtom(Sym("x"), e2, u2, fuel - 2);
    assert Eval(Sym("x"), e2, u2, fuel - 2).result == Ok(Num(2));
  }

  /** `(let ((x 1)) body)` evaluates `body` in a new frame `{x => 1}` in front of `env`. */
  lemma LetX1(body: Value, env: EnvId, s: Store, fuel: nat)
    requires fuel >= 3
    ensures Eval(List([Sym("let"), List([List([Sym("x"), Num(1)])]), body]), env, s, fuel)
         == Eval(body, ExtendEnv([Sym("x")], [Num(1)], env, s).0, ExtendEnv([Sym("x")], [Num(1)], env, s).1, fuel - 2)
  {
    EvalAtom(Num(1), env, s, fuel - 2);
    EvalLetOne(Sym("x"), Num(1), Num(1), body, env, s, s, fuel);
  }

  /** That frame is the innermost of the new environment and has `x`. */
  lemma ExtendX1(env: EnvId, s: Store)
    requires WellFormed(s) && env < |s.chains|
    ensures
      var (e1, s1) := ExtendEnv([Sym("x")], [Num(1)], env, s);
      WellFormed(s1) && e1 < |s1.chains| && |ChainIds(s1, e1)| > 0 && Sym("x") in Chain(s1, e1)[0]
  {
    ExtendEnvKeeps([Sym("x")], [Num(1)], env, s);
    ExtendEnvChains([Sym("x")], [Num(1)], env, s);
    assert Bind(map[], [Sym("x")], [Num(1)]) == map[Sym("x") := Num(1)];
  }

  /** `(let ((x 1)) (let ((dummy (setq x 2))) x))` gives 2: `setq` writes into the frame
      the outer `let` made, which the inner body sees. */
  lemma SetqIn(env: EnvId, s: Store, fuel: nat)
    requires WellFormed(s) && env < |s.chains| && fuel >= 6
    ensures Eval(List([Sym("let"), List([List([Sym("x"), Num(1)])]),
                       List([Sym("let"), List([List([Sym("dummy"), List([Sym("setq"), Sym("x"), Num(2)])])]), Sym("x")])]),
                 env, s, fuel).result == Ok(Num(2))
  {
    var inner := List([Sym("let"), List([List([Sym("dummy"), List([Sym("setq"), Sym("x"), Num(2)])])]), Sym("x")]);
    LetX1(inner, env, s, fuel);
    ExtendX1(env, s);
    var (e1, s1) := ExtendEnv([Sym("x")], [Num(1)], env, s);
    InnerLetSees(e1, s1, fuel - 2);
  }

  lemma SetqTest(s: Store, fuel: nat)
    requires Initial(s) && fuel >= 6
    ensures Eval(List([Sym("let"), List([List([Sym("x"), Num(1)])]),
                       List([Sym("let"), List([List([Sym("dummy"), List([Sym("setq"), Sym("x"), Num(2)])])]), Sym("x")])]),
                 0, s, fuel).result == Ok(Num(2))
  {
    SetqIn(0, s, fuel);
  }

  // ---------------------------------------------------------------- letrec

  /** `(op x b)` with `op` bound to the primitive `p` and the name `x` to the number `a`. */
  lemma EvalBinaryOnNameAndNumber(op: Value, p: PrimOp, x: Value, a: int, b: int, env: EnvId, s: Store, fuel: nat)
    requires fuel >= 2 && op.Sym? && x.Sym? && SpecialFormOf(List([op, x, Num(b)])).None?
    requires LookupVar(op, Chain(s, env)) == Ok(Prim(p))
    requires LookupVar(x, Chain(s, env)) == Ok(Num(a))
    ensures Eval(List([op, x, Num(b)]), env, s, fuel) == Outcome(ApplyPrimitiveFun(p, [Num(a), Num(b)]), s)
  {
    assert Eval(x, env, s, fuel - 1) == Outcome(Ok(Num(a)), s);
    EvalBinary(op, p, x, Num(b), a, b, env, s, s, fuel);
  }

  /** The names the body of `fact` uses, in the frame `{n => k}` in front of `chain`. */
  lemma FactFrameLookups(k: int, c: Value, chain: seq<map<Value, Value>>)
    requires LookupVar(Sym("fact"), chain) == Ok(c)
    requires LookupVar(Sym("<"), chain) == Ok(Prim(Lt))
    requires LookupVar(Sym("*"), chain) == Ok(Prim(Mul))
    requires LookupVar(Sym("-"), chain) == Ok(Prim(Sub))
    ensures
      var inner := [map[Sym("n") := Num(k)]] + chain;
      LookupVar(Sym("n"), inner) == Ok(Num(k)) && LookupVar(Sym("fact"), inner) == Ok(c) &&
      LookupVar(Sym("<"), inner) == Ok(Prim(Lt)) && LookupVar(Sym("*"), inner) == Ok(Prim(Mul)) &&
      LookupVar(Sym("-"), inner) == Ok(Prim(Sub))
  {
    var m := map[Sym("n") := Num(k)];
    LookupShadowing(Sym("n"), m, chain);
    LookupShadowing(Sym("fact"), m, chain);
    LookupShadowing(Sym("<"), m, chain);
    LookupShadowing(Sym("*"), m, chain);
    LookupShadowing(Sym("-"), m, chain);
  }

  /** Calling a closure of environment `ext` on `k` binds `n` in a new environment in
      front of `ext`, which itself is not changed. */
  lemma FactCallEnv(k: int, ext: EnvId, t: Store)
    requires ChainAllocated(t, ext)
    ensures
      var (e, u) := ExtendEnv([Sym("n")], [Num(k)], ext, t);
      ChainAllocated(u, ext) &&
      Chain(u, ext) == Chain(t, ext) &&
      Chain(u, e) == [map[Sym("n") := Num(k)]] + Chain(t, ext)
  {
    ExtendEnvChains([Sym("n")], [Num(k)], ext, t);
    assert Bind(map[], [Sym("n")], [Num(k)]) == map[Sym("n") := Num(k)];
  }

  /** `(f x)` where the name `f` is bound to `c` and `x` evaluates to `v` without changing
      the store: `c` applied to `[v]`. */
  lemma EvalUnaryCall(f: Value, x: Value, c: Value, v: Value, env: EnvId, s: Store, fuel: nat)
    requires fuel >= 2 && f.Sym? && SpecialFormOf(List([f, x])).None?
    requires LookupVar(f, Chain(s, env)) == Ok(c)
    requires Eval(x, env, s, fuel - 1) == Outcome(Ok(v), s)
    ensures Eval(List([f, x]), env, s, fuel) == Apply(c, [v], s, fuel - 1)
  {
    var call := List([f, x]);
    assert call.items[1..] == [x];
    EvalEachOne(x, v, env, s, s, fuel - 1);
    EvalCall(call, c, [v], env, s, s, fuel);
  }

  /** `(fact (- n 1))` where `n` is `k`: a call of `fact` on `k - 1`. */
  lemma FactRecursiveCall(k: int, c: Value, e: EnvId, u: Store, fuel: nat)
    requires fuel >= 3
    requires LookupVar(Sym("fact"), Chain(u, e)) == Ok(c)
    requires LookupVar(Sym("-"), Chain(u, e)) == Ok(Prim(Sub))
    requires LookupVar(Sym("n"), Chain(u, e)) == Ok(Num(k))
    ensures Eval(FactCall, e, u, fuel) == Apply(c, [Num(k - 1)], u, fuel - 1)
  {
    var arg := List([Sym("-"), Sym("n"), Num(1)]);
    EvalBinaryOnNameAndNumber(Sym("-"), Sub, Sym("n"), k, 1, e, u, fuel - 1);
    assert ApplyPrimitiveFun(Sub, [Num(k), Num(1)]) == Ok(Num(k - 1));
    EvalUnaryCall(Sym("fact"), arg, c, Num(k - 1), e, u, fuel);
  }

  /** `(op x y)` with `op` bound to the primitive `p`, the name `x` to the number `a`,
      and `y` evaluating to the number `b`. */
  lemma EvalBinaryOnName(op: Value, p: PrimOp, x: Value, y: Value, a: int, b: int, env: EnvId, s: Store, fuel: nat)
    requires fuel >= 2 && op.Sym? && x.Sym? && SpecialFormOf(List([op, x, y])).None?
    requires LookupVar(op, Chain(s, env)) == Ok(Prim(p))
    requires LookupVar(x, Chain(s, env)) == Ok(Num(a))
    requires Eval(y, env, s, fuel - 1).result == Ok(Num(b))
    ensures Eval(List([op, x, y]), env, s, fuel).result == ApplyPrimitiveFun(p, [Num(a), Num(b)])
  {
    assert Eval(x, env, s, fuel - 1) == Outcome(Ok(Num(a)), s);
    EvalBinary(op, p, x, y, a, b, env, s, Eval(y, env, s, fuel - 1).store, fuel);
  }

  /** `(* n (fact (- n 1)))` where `n` is `k` and the call on `k - 1` gives `r`. */
  lemma FactProduct(k: int, r: int, c: Value, e: EnvId, u: Store, fuel: nat)
    requires fuel >= 4
    requires LookupVar(Sym("fact"), Chain(u, e)) == Ok(c)
    requires LookupVar(Sym("-"), Chain(u, e)) == Ok(Prim(Sub))
    requires LookupVar(Sym("*"), Chain(u, e)) == Ok(Prim(Mul))
    requires LookupVar(Sym("n"), Chain(u, e)) == Ok(Num(k))
    requires Apply(c, [Num(k - 1)], u, fuel - 2).result == Ok(Num(r))
    ensures Eval(List([Sym("*"), Sym("n"), FactCall]), e, u, fuel).result == Ok(Num(k * r))
  {
    FactRecursiveCall(k, c, e, u, fuel - 1);
    assert Eval(FactCall, e, u, fuel - 1).result == Ok(Num(r));
    EvalBinaryOnName(Sym("*"), Mul, Sym("n"), FactCall, k, r, e, u, fuel);
    assert ApplyPrimitiveFun(Mul, [Num(k), Num(r)]) == Ok(Num(k * r));
  }

  /** `(< n 1)` where `n` is `k`. */
  lemma FactTestEval(k: int, e: EnvId, u: Store, fuel: nat)
    requires fuel >= 2
    requires LookupVar(Sym("<"), Chain(u, e)) == Ok(Prim(Lt))
    requires LookupVar(Sym("n"), Chain(u, e)) == Ok(Num(k))
    ensures Eval(List([Sym("<"), Sym("n"), Num(1)]), e, u, fuel) == Outcome(Ok(Bool(k < 1)), u)
  {
    EvalBinaryOnNameAndNumber(Sym("<"), Lt, Sym("n"), k, 1, e, u, fuel);
  }

  /** The body of `fact` where `n` is 0: the test holds and the result is 1. */
  lemma FactBodyBase(e: EnvId, u: Store, fuel: nat)
    requires fuel >= 3
    requires LookupVar(Sym("<"), Chain(u, e)) == Ok(Prim(Lt))
    requires LookupVar(Sym("n"), Chain(u, e)) == Ok(Num(0))
    ensures Eval(FactBody, e, u, fuel).result == Ok(Num(1))
  {
    var prod := List([Sym("*"), Sym("n"), FactCall]);
    var test := List([Sym("<"), Sym("n"), Num(1)]);
    assert FactBody == List([Sym("if"), test, Num(1), prod]);
    FactTestEval(0, e, u, fuel - 1);
    EvalIfOn(test, Num(1), prod, Bool(true), e, u, fuel);
  }

  /** The body of `fact` where `n` is `k > 0`, given that the call on `k - 1` gives
      `(k - 1)!`. */
  lemma FactBodyStep(k: nat, c: Value, e: EnvId, u: Store, fuel: nat)
    requires k > 0 && fuel >= 5
    requires LookupVar(Sym("fact"), Chain(u, e)) == Ok(c)
    requires LookupVar(Sym("<"), Chain(u, e)) == Ok(Prim(Lt))
    requires LookupVar(Sym("-"), Chain(u, e)) == Ok(Prim(Sub))
    requires LookupVar(Sym("*"), Chain(u, e)) == Ok(Prim(Mul))
    requires LookupVar(Sym("n"), Chain(u, e)) == Ok(Num(k))
    requires Apply(c, [Num(k - 1)], u, fuel - 3).result == Ok(Num(Factorial(k - 1)))
    ensures Eval(FactBody, e, u, fuel).result == Ok(Num(Factorial(k)))
  {
    var prod := List([Sym("*"), Sym("n"), FactCall]);
    assert FactBody == List([Sym("if"), List([Sym("<"), Sym("n"), Num(1)]), Num(1), prod]);
    var test := List([Sym("<"), Sym("n"), Num(1)]);
    FactTestEval(k, e, u, fuel - 1);
    EvalIfOn(test, Num(1), prod, Bool(false), e, u, fuel);
    FactProduct(k, Factorial(k - 1), c, e, u, fuel - 1);
  }

  /** The call of the `fact` closure of `ext` on 0: the body in the frame `{n => 0}`. */
  lemma FactApplyZero(k: nat, ext: EnvId, t: Store, fuel: nat)
    requires FactReady(t, ext) && k == 0 && fuel >= 3
    ensures FactResult(k, ext, t, fuel) == Ok(Num(Factorial(k)))
  {
    var c := FactClosure(ext);
    ApplySpec(c, [Num(0)], t, fuel);
    FactCallEnv(0, ext, t);
    var (e, u) := ExtendEnv([Sym("n")], [Num(0)], ext, t);
    FactFrameLookups(0, c, Chain(t, ext));
    FactBodyBase(e, u, fuel);
  }

  /** The call of the `fact` closure of `ext` on `k > 0`, given what the call on `k - 1`
      gives in every store where `ext` is ready, in particular the one this call made. */
  lemma FactApplySucc(k: nat, ext: EnvId, t: Store, fuel: nat)
    requires FactReady(t, ext) && k > 0 && fuel >= 5
    requires forall u: Store {:trigger FactResult(k - 1, ext, u, fuel - 3)} | FactReady(u, ext) :: FactResult(k - 1, ext, u, fuel - 3) == Ok(Num(Factorial(k - 1)))
    ensures FactResult(k, ext, t, fuel) == Ok(Num(Factorial(k)))
  {
    var c := FactClosure(ext);
    FactInnerStore(k, ext, t);
    ApplySpec(c, [Num(k)], t, fuel);
    FactCallEnv(k, ext, t);
    var (e, u) := ExtendEnv([Sym("n")], [Num(k)], ext, t);
    assert FactResult(k - 1, ext, u, fuel - 3) == Ok(Num(Factorial(k - 1)));
    FactFrameLookups(k, c, Chain(t, ext));
    FactBodyStep(k, c, e, u, fuel);
  }

  /** The store a call of a closure of `ext` makes is still ready. */
  lemma FactInnerStore(k: int, ext: EnvId, t: Store)
    requires FactReady(t, ext)
    ensures FactReady(ExtendEnv([Sym("n")], [Num(k)], ext, t).1, ext)
  {
    FactCallEnv(k, ext, t);
  }

  /** The `fact` closure of an environment that binds `fact` to it, applied to `k`,
      gives `k!`: each level spends three units of fuel. */
  lemma FactApplied(k: nat, ext: EnvId, t: Store, fuel: nat)
    requires FactReady(t, ext) && fuel >= 3 * k + 3
    ensures FactResult(k, ext, t, fuel) == Ok(Num(Factorial(k)))
  {
    FactAppliedEverywhere(k, ext, fuel);
  }

  /** The same in every store where `ext` is ready, by induction on `k`. */
  lemma {:induction false} FactAppliedEverywhere(k: nat, ext: EnvId, fuel: nat)
    requires fuel >= 3 * k + 3
    ensures forall u: Store {:trigger FactResult(k, ext, u, fuel)} | FactReady(u, ext) ::
      FactResult(k, ext, u, fuel) == Ok(Num(Factorial(k)))
  {
    if k == 0 {
      forall u: Store | FactReady(u, ext)
        ensures FactResult(k, ext, u, fuel) == Ok(Num(Factorial(k)))
      {
        FactApplyZero(k, ext, u, fuel);
      }
    } else {
      FactAppliedEverywhere(k - 1, ext, fuel - 3);
      FactStepEverywhere(k, ext, fuel);
    }
  }

  /** One level of the induction, in every ready store at once. */
  lemma FactStepEverywhere(k: nat, ext: EnvId, fuel: nat)
    requires k > 0 && fuel >= 5
    requires forall u: Store {:trigger FactResult(k - 1, ext, u, fuel - 3)} | FactReady(u, ext) ::
      FactResult(k - 1, ext, u, fuel - 3) == Ok(Num(Factorial(k - 1)))
    ensures forall u: Store {:trigger FactResult(k, ext, u, fuel)} | FactReady(u, ext) ::
      FactResult(k, ext, u, fuel) == Ok(Num(Factorial(k)))
  {
    forall u: Store | FactReady(u, ext)
      ensures FactResult(k, ext, u, fuel) == Ok(Num(Factorial(k)))
    {
      FactApplySucc(k, ext, u, fuel);
    }
  }

  /** `(lambda (n) ...)`, the initialiser of `fact`. */
  const FactLambda: Value := List([Sym("lambda"), List([Sym("n")]), FactBody])

  /** `(letrec ((fact (lambda (n) ...))) (fact 3))`. */
  const LetrecFact: Value := List([Sym("letrec"), List([List([Sym("fact"), FactLambda])]), List([Sym("fact"), Num(3)])])

  lemma LetrecFactParts()
    ensures SpecialFormOf(LetrecFact) == Some(Letrec)
    ensures LetToParametersArgsBody(LetrecFact) == Ok(LetParts([Sym("fact")], [FactLambda], List([Sym("fact"), Num(3)])))
  {
    var bindings := [List([Sym("fact"), FactLambda])];
    assert Index(bindings[0], 0) == Ok(Sym("fact"));
    var bp := BindingParts(bindings);
    assert bp.Ok?;
    assert bp.value.0 == [Sym("fact")];
    assert bp.value.1 == [FactLambda];
  }

  /** A single `lambda` initialiser evaluates to the closure of the current environment. */
  lemma EvalEachLambda(params: Value, body: Value, env: EnvId, s: Store, fuel: nat)
    requires fuel > 0
    ensures EvalEach([List([Sym("lambda"), params, body])], env, s, fuel) == Outcome(Ok([Closure(params, body, env)]), s)
  {
    EvalLambda(params, body, env, s, fuel);
    EvalEachOne(List([Sym("lambda"), params, body]), Closure(params, body, env), env, s, s, fuel);
  }

  /** The steps of the factorial `letrec` up to its `let`-style application: a frame
      `{fact => :dummy}` in front of `env`, the closure made there, the backpatch. */
  lemma LetrecFactInit(env: EnvId, s: Store, fuel: nat)
    requires WellFormed(s) && env < |s.chains| && fuel >= 2
    ensures
      var (ext, s1) := ExtendEnv([Sym("fact")], DummyArgs([Sym("fact")]), env, s);
      Eval(LetrecFact, env, s, fuel) ==
        Eval(LambdaApplication([Sym("fact")], List([Sym("fact"), Num(3)]), [FactLambda]), ext,
             SetExtendEnvQ([Sym("fact")], [FactClosure(ext)], ext, s1), fuel - 1)
  {
    LetrecFactParts();
    LetrecLambdaInit(LetrecFact, Sym("fact"), List([Sym("n")]), FactBody, List([Sym("fact"), Num(3)]), env, s, fuel);
  }

  /** The same steps for any `letrec` binding one name to a `lambda`. */
  lemma LetrecLambdaInit(exp: Value, name: Value, params: Value, body: Value, appBody: Value,
                         env: EnvId, s: Store, fuel: nat)
    requires WellFormed(s) && env < |s.chains| && fuel >= 2
    requires SpecialFormOf(exp) == Some(Letrec)
    requires LetToParametersArgsBody(exp) == Ok(LetParts([name], [List([Sym("lambda"), params, body])], appBody))
    ensures
      var (ext, s1) := ExtendEnv([name], DummyArgs([name]), env, s);
      Eval(exp, env, s, fuel) ==
        Eval(LambdaApplication([name], appBody, [List([Sym("lambda"), params, body])]), ext,
             SetExtendEnvQ([name], [Closure(params, body, ext)], ext, s1), fuel - 1)
  {
    var lam := List([Sym("lambda"), params, body]);
    var (ext, s1) := ExtendEnv([name], DummyArgs([name]), env, s);
    EvalEachLambda(params, body, ext, s1, fuel - 1);
    assert EvalList(List([lam]), ext, s1, fuel - 1) == Outcome(Ok([Closure(params, body, ext)]), s1);
    assert Eval(exp, env, s, fuel) == EvalLetrec(exp, env, s, fuel - 1);
  }

  /** The backpatch of the factorial `letrec`: the new frame that bound `fact` to
      `:dummy` now binds it to the closure, which therefore sees itself; the frames
      behind it, those of `env`, are other frames and keep their contents. */
  lemma LetrecFactBackpatch(env: EnvId, s: Store)
    requires ChainAllocated(s, env)
    ensures
      var (ext, s1) := ExtendEnv([Sym("fact")], DummyArgs([Sym("fact")]), env, s);
      var s2 := SetExtendEnvQ([Sym("fact")], [FactClosure(ext)], ext, s1);
      ChainAllocated(s2, ext) && Chain(s2, ext) == [map[Sym("fact") := FactClosure(ext)]] + Chain(s, env)
  {
    var (ext, s1) := ExtendEnv([Sym("fact")], DummyArgs([Sym("fact")]), env, s);
    var c := FactClosure(ext);
    var s2 := SetExtendEnvQ([Sym("fact")], [c], ext, s1);
    var ids := ChainIds(s1, ext);
    assert ids == [|s.frames|] + ChainIds(s, env);
    LetrecBackpatch([Sym("fact")], [c], ext, s1);
    assert Bind(map[], [Sym("fact")], [c]) == map[Sym("fact") := c];
    forall i | 0 <= i < |ids|
      ensures Chain(s2, ext)[i] == ([map[Sym("fact") := c]] + Chain(s, env))[i]
    {
      if i > 0 {
        assert ids[i] == ChainIds(s, env)[i - 1] < |s.frames|;
        assert FrameAt(s1, ids[i]) == FrameAt(s, ids[i]);
      }
    }
  }

  /** The names the factorial needs, seen through the frame `{fact => c}`. */
  lemma FactEnvLookups(c: Value, chain: seq<map<Value, Value>>)
    requires LookupVar(Sym("<"), chain) == Ok(Prim(Lt))
    requires LookupVar(Sym("*"), chain) == Ok(Prim(Mul))
    requires LookupVar(Sym("-"), chain) == Ok(Prim(Sub))
    requires c != Nil
    ensures
      var outer := [map[Sym("fact") := c]] + chain;
      LookupVar(Sym("fact"), outer) == Ok(c) && LookupVar(Sym("<"), outer) == Ok(Prim(Lt)) &&
      LookupVar(Sym("*"), outer) == Ok(Prim(Mul)) && LookupVar(Sym("-"), outer) == Ok(Prim(Sub))
  {
    var m := map[Sym("fact") := c];
    LookupShadowing(Sym("fact"), m, chain);
    LookupShadowing(Sym("<"), m, chain);
    LookupShadowing(Sym("*"), m, chain);
    LookupShadowing(Sym("-"), m, chain);
  }

  /** `(fact 3)` where `fact` names a closure that gives 6 on 3. */
  lemma FactThree(c: Value, e: EnvId, t: Store, fuel: nat)
    requires fuel >= 2
    requires LookupVar(Sym("fact"), Chain(t, e)) == Ok(c)
    requires Apply(c, [Num(3)], t, fuel - 1).result == Ok(Num(6))
    ensures Eval(List([Sym("fact"), Num(3)]), e, t, fuel).result == Ok(Num(6))
  {
    assert SpecialFormOf(List([Sym("fact"), Num(3)])).None?;
    EvalUnaryCall(Sym("fact"), Num(3), c, Num(3), e, t, fuel);
  }

  /** `((lambda (fact) (fact 3)) closure)` evaluates `(fact 3)` in a new frame that binds
      `fact` to the closure, in front of `ext`. */
  lemma LetrecFactApplication(ext: EnvId, t: Store, fuel: nat)
    requires fuel >= 2
    ensures Eval(LambdaApplication([Sym("fact")], List([Sym("fact"), Num(3)]), [FactLambda]), ext, t, fuel)
         == Eval(List([Sym("fact"), Num(3)]), ExtendEnv([Sym("fact")], [FactClosure(ext)], ext, t).0,
                 ExtendEnv([Sym("fact")], [FactClosure(ext)], ext, t).1, fuel - 1)
  {
    EvalEachLambda(List([Sym("n")]), FactBody, ext, t, fuel - 1);
    LambdaApplicationOne([Sym("fact")], List([Sym("fact"), Num(3)]), FactLambda, FactClosure(ext), ext, t, fuel);
  }

  /** A `lambda` applied to one argument that evaluates to `v` without changing the store
      evaluates its body in a new frame binding the parameters to `[v]`. */
  lemma LambdaApplicationOne(params: seq<Value>, body: Value, init: Value, v: Value, env: EnvId, t: Store, fuel: nat)
    requires fuel >= 2
    requires EvalEach([init], env, t, fuel - 1) == Outcome(Ok([v]), t)
    ensures Eval(LambdaApplication(params, body, [init]), env, t, fuel)
         == Eval(body, ExtendEnv(params, [v], env, t).0, ExtendEnv(params, [v], env, t).1, fuel - 1)
  {
    EvalLambdaApplication(params, body, [init], env, t, fuel);
  }

  /** That frame binds `fact` to the closure `c` and leaves `ext` as it was. */
  lemma FactParameterEnv(c: Value, ext: EnvId, t: Store)
    requires ChainAllocated(t, ext) && c.Closure?
    ensures
      var e := ExtendEnv([Sym("fact")], [c], ext, t).0;
      var u := ExtendEnv([Sym("fact")], [c], ext, t).1;
      ChainAllocated(u, ext) && Chain(u, ext) == Chain(t, ext) &&
      LookupVar(Sym("fact"), Chain(u, e)) == Ok(c)
  {
    ExtendEnvChains([Sym("fact")], [c], ext, t);
    assert Bind(map[], [Sym("fact")], [c]) == map[Sym("fact") := c];
    LookupShadowing(Sym("fact"), map[Sym("fact") := c], Chain(t, ext));
  }

  /** `(fact 3)` in that frame gives 6 when `c` gives 6 on 3. */
  lemma FactThreeInParameterEnv(c: Value, ext: EnvId, t: Store, fuel: nat)
    requires ChainAllocated(t, ext) && c.Closure? && fuel >= 2
    requires Apply(c, [Num(3)], ExtendEnv([Sym("fact")], [c], ext, t).1, fuel - 1).result == Ok(Num(6))
    ensures Eval(List([Sym("fact"), Num(3)]), ExtendEnv([Sym("fact")], [c], ext, t).0,
                 ExtendEnv([Sym("fact")], [c], ext, t).1, fuel).result == Ok(Num(6))
  {
    FactParameterEnv(c, ext, t);
    FactThree(c, ExtendEnv([Sym("fact")], [c], ext, t).0, ExtendEnv([Sym("fact")], [c], ext, t).1, fuel);
  }

  /** `(fact 3)` with the factorial closure of `ext`, called in a store where `ext` binds
      `fact` to it, gives 6. */
  lemma FactOfThree(ext: EnvId, u: Store, fuel: nat)
    requires ChainAllocated(u, ext) && fuel >= 12
    requires LookupVar(Sym("fact"), Chain(u, ext)) == Ok(FactClosure(ext))
    requires LookupVar(Sym("<"), Chain(u, ext)) == Ok(Prim(Lt))
    requires LookupVar(Sym("*"), Chain(u, ext)) == Ok(Prim(Mul))
    requires LookupVar(Sym("-"), Chain(u, ext)) == Ok(Prim(Sub))
    ensures Apply(FactClosure(ext), [Num(3)], u, fuel).result == Ok(Num(6))
  {
    FactApplied(3, ext, u, fuel);
    assert Factorial(3) == 6;
  }

  /** `(fact 3)` in the frame that binds `fact` to the factorial closure of `ext`, in
      front of `ext`, gives 6. */
  lemma FactThreeInFrame(ext: EnvId, t: Store, fuel: nat)
    requires ChainAllocated(t, ext) && fuel >= 14
    requires LookupVar(Sym("fact"), Chain(t, ext)) == Ok(FactClosure(ext))
    requires LookupVar(Sym("<"), Chain(t, ext)) == Ok(Prim(Lt))
    requires LookupVar(Sym("*"), Chain(t, ext)) == Ok(Prim(Mul))
    requires LookupVar(Sym("-"), Chain(t, ext)) == Ok(Prim(Sub))
    ensures Eval(List([Sym("fact"), Num(3)]), ExtendEnv([Sym("fact")], [FactClosure(ext)], ext, t).0,
                 ExtendEnv([Sym("fact")], [FactClosure(ext)], ext, t).1, fuel - 1).result == Ok(Num(6))
  {
    var c := FactClosure(ext);
    FactParameterEnv(c, ext, t);
    FactOfThree(ext, ExtendEnv([Sym("fact")], [c], ext, t).1, fuel - 2);
    FactThreeInParameterEnv(c, ext, t, fuel - 1);
  }

  /** The application the factorial `letrec` ends in gives what `(fact 3)` gives in the
      frame binding `fact`. */
  lemma LetrecFactBody(ext: EnvId, t: Store, fuel: nat)
    requires fuel >= 2
    requires Eval(List([Sym("fact"), Num(3)]), ExtendEnv([Sym("fact")], [FactClosure(ext)], ext, t).0,
                  ExtendEnv([Sym("fact")], [FactClosure(ext)], ext, t).1, fuel - 1).result == Ok(Num(6))
    ensures Eval(LambdaApplication([Sym("fact")], List([Sym("fact"), Num(3)]), [FactLambda]), ext, t, fuel).result == Ok(Num(6))
  {
    LetrecFactApplication(ext, t, fuel);
  }

  /** `(letrec ((fact (lambda (n) (if (< n 1) 1 (* n (fact (- n 1))))))) (fact 3))`
      gives 6 wherever `<`, `*` and `-` are the primitives. */
  lemma LetrecIn(env: EnvId, s: Store, fuel: nat)
    requires WellFormed(s) && env < |s.chains| && fuel >= 15
    requires LookupVar(Sym("<"), Chain(s, env)) == Ok(Prim(Lt))
    requires LookupVar(Sym("*"), Chain(s, env)) == Ok(Prim(Mul))
    requires LookupVar(Sym("-"), Chain(s, env)) == Ok(Prim(Sub))
    ensures Eval(LetrecFact, env, s, fuel).result == Ok(Num(6))
  {
    LetrecFactInit(env, s, fuel);
    LetrecFactAfterInit(env, s, fuel);
  }

  /** What the factorial `letrec` does after its initialisers: the backpatched frame
      and the application. */
  lemma LetrecFactAfterInit(env: EnvId, s: Store, fuel: nat)
    requires ChainAllocated(s, env) && fuel >= 15
    requires LookupVar(Sym("<"), Chain(s, env)) == Ok(Prim(Lt))
    requires LookupVar(Sym("*"), Chain(s, env)) == Ok(Prim(Mul))
    requires LookupVar(Sym("-"), Chain(s, env)) == Ok(Prim(Sub))
    ensures
      var (ext, s1) := ExtendEnv([Sym("fact")], DummyArgs([Sym("fact")]), env, s);
      Eval(LambdaApplication([Sym("fact")], List([Sym("fact"), Num(3)]), [FactLambda]), ext,
           SetExtendEnvQ([Sym("fact")], [FactClosure(ext)], ext, s1), fuel - 1).result == Ok(Num(6))
  {
    LetrecFactBackpatch(env, s);
    var (ext, s1) := ExtendEnv([Sym("fact")], DummyArgs([Sym("fact")]), env, s);
    var s2 := SetExtendEnvQ([Sym("fact")], [FactClosure(ext)], ext, s1);
    FactEnvLookups(FactClosure(ext), Chain(s, env));
    FactThreeInFrame(ext, s2, fuel - 1);
    LetrecFactBody(ext, s2, fuel - 1);
  }

  lemma LetrecTest(s: Store, fuel: nat)
    requires Initial(s) && fuel >= 15
    ensures Eval(LetrecFact, 0, s, fuel).result == Ok(Num(6))
  {
    ComparisonBuiltins();
    MulBuiltin();
    SubBuiltin();
    LetrecIn(0, s, fuel);
  }
}
