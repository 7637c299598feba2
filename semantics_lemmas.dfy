/** What the special forms and `apply` do, stated on the evaluator of module Semantics.
    Fuel: `_eval` spends one unit and hands the rest to the handler of the form, so a
    handler that calls `_eval` again does so with `fuel - 1`. */
module SemanticsLemmas {
  import opened Values
  import opened ListPrimitives
  import opened Primitives
  import opened Environment
  import opened SpecialForms
  import opened Semantics

  /** A number evaluates to itself, any other atom to its lookup; neither touches the
      store. */
  lemma EvalAtom(exp: Value, env: EnvId, s: Store, fuel: nat)
    requires fuel > 0 && !exp.List?
    ensures Eval(exp, env, s, fuel) ==
      Outcome(if exp.Num? then Ok(exp) else LookupVar(exp, Chain(s, env)), s)
  {
  }

  /** `lambda` captures the current environment object without evaluating the body. */
  lemma EvalLambda(params: Value, body: Value, env: EnvId, s: Store, fuel: nat)
    requires fuel > 0
    ensures Eval(List([Sym("lambda"), params, body]), env, s, fuel) == Outcome(Ok(Closure(params, body, env)), s)
  {
  }

  /** `quote` hands back its argument unevaluated and leaves the store alone, so quoting
      twice gives equal results. */
  lemma EvalQuoted(e: Value, env: EnvId, s: Store, fuel: nat)
    requires fuel > 0
    ensures Eval(List([Sym("quote"), e]), env, s, fuel) == Outcome(Ok(e), s)
  {
  }

  /** An application that is no special form evaluates its head first, then its
      arguments left to right in the store the head left behind, then applies. */
  lemma EvalApplicationOrder(exp: Value, env: EnvId, s: Store, fuel: nat)
    requires fuel > 0 && exp.List? && |exp.items| > 0 && SpecialFormOf(exp).None?
    ensures
      var f := Eval(exp.items[0], env, s, fuel - 1);
      var a := EvalEach(exp.items[1..], env, f.store, fuel - 1);
      Eval(exp, env, s, fuel) ==
        if f.result.Err? then f
        else if a.result.Err? then Outcome(Err(a.result.error), a.store)
        else Apply(f.result.value, a.result.value, a.store, fuel - 1)
  {
  }

  /** Numbers evaluate to themselves, so a list of them is its own `eval_list`. */
  lemma {:induction false} EvalEachNumbers(xs: seq<Value>, env: EnvId, s: Store, fuel: nat)
    requires fuel > 0 && forall i | 0 <= i < |xs| :: xs[i].Num?
    ensures EvalEach(xs, env, s, fuel) == Outcome(Ok(xs), s)
  {
    if |xs| > 0 {
      EvalEachNumbers(xs[1..], env, s, fuel);
      assert [xs[0]] + xs[1..] == xs;
    }
  }

  /** Applying a primitive spreads the arguments into it; applying a closure evaluates
      its body in `extend_env(params, args, captured_env)`. */
  lemma ApplySpec(fun: Value, args: seq<Value>, s: Store, fuel: nat)
    ensures fun.Prim? ==> Apply(fun, args, s, fuel) == Outcome(ApplyPrimitiveFun(fun.op, args), s)
    ensures fun.Closure? && fun.params.List? ==>
      Apply(fun, args, s, fuel) ==
        Eval(fun.body, ExtendEnv(fun.params.items, args, fun.env, s).0, ExtendEnv(fun.params.items, args, fun.env, s).1, fuel)
    ensures !fun.Prim? && !fun.Closure? ==> Apply(fun, args, s, fuel) == Outcome(Err(NotApplicable(fun)), s)
  {
  }

  /** `eval_list` works left to right: the expressions after a prefix are evaluated in
      the store the prefix left behind, and an error stops the rest. */
  lemma {:induction false} EvalEachAppend(xs: seq<Value>, ys: seq<Value>, env: EnvId, s: Store, fuel: nat)
    ensures EvalEach(xs + ys, env, s, fuel) ==
      var first := EvalEach(xs, env, s, fuel);
      if first.result.Err? then first
      else
        var rest := EvalEach(ys, env, first.store, fuel);
        if rest.result.Err? then rest
        else Outcome(Ok(first.result.value + rest.result.value), rest.store)
  {
    if |xs| == 0 {
      assert xs + ys == ys;
      var rest := EvalEach(ys, env, s, fuel);
      if rest.result.Ok? {
        assert [] + rest.result.value == rest.result.value;
      }
    } else {
      var head := Eval(xs[0], env, s, fuel);
      assert (xs + ys)[0] == xs[0];
      assert (xs + ys)[1..] == xs[1..] + ys;
      if head.result.Ok? {
        var tail := EvalEach(xs[1..], env, head.store, fuel);
        EvalEachAppend(xs[1..], ys, env, head.store, fuel);
        if tail.result.Ok? {
          var rest := EvalEach(ys, env, tail.store, fuel);
          if rest.result.Ok? {
            assert [head.result.value] + (tail.result.value + rest.result.value)
              == ([head.result.value] + tail.result.value) + rest.result.value;
          }
        }
      }
    }
  }

  /** One expression more at the end: evaluated last, in the store the others left. */
  lemma EvalEachSnoc(xs: seq<Value>, x: Value, env: EnvId, s: Store, fuel: nat)
    requires EvalEach(xs, env, s, fuel).result.Ok?
    ensures
      var first := EvalEach(xs, env, s, fuel);
      var o := Eval(x, env, first.store, fuel);
      EvalEach(xs + [x], env, s, fuel) ==
        if o.result.Err? then Outcome(Err(o.result.error), o.store)
        else Outcome(Ok(first.result.value + [o.result.value]), o.store)
  {
    var first := EvalEach(xs, env, s, fuel);
    EvalEachAppend(xs, [x], env, s, fuel);
    var o := Eval(x, env, first.store, fuel);
    assert [x][1..] == [];
    assert EvalEach([x][1..], env, o.store, fuel) == Outcome(Ok([]), o.store);
    assert o.result.Ok? ==> [o.result.value] + [] == [o.result.value];
    assert EvalEach([x], env, first.store, fuel) ==
      if o.result.Err? then Outcome(Err(o.result.error), o.store) else Outcome(Ok([o.result.value]), o.store);
  }

  /** An error stops `eval_list`: nothing after it is evaluated. */
  lemma EvalEachStops(xs: seq<Value>, ys: seq<Value>, env: EnvId, s: Store, fuel: nat)
    requires EvalEach(xs, env, s, fuel).result.Err?
    ensures EvalEach(xs + ys, env, s, fuel) == EvalEach(xs, env, s, fuel)
  {
    EvalEachAppend(xs, ys, env, s, fuel);
  }

  /** One step of `eval_list` past a prefix that gave `vals` and left store `t`: an error
      ends the whole list there, a value extends the prefix. */
  lemma EvalEachStep(items: seq<Value>, i: nat, vals: seq<Value>, env: EnvId, s: Store, t: Store, fuel: nat)
    requires i < |items| && EvalEach(items[..i], env, s, fuel) == Outcome(Ok(vals), t)
    ensures
      var o := Eval(items[i], env, t, fuel);
      (o.result.Err? ==> EvalEach(items, env, s, fuel) == Outcome(Err(o.result.error), o.store)) &&
      (o.result.Ok? ==> EvalEach(items[..i + 1], env, s, fuel) == Outcome(Ok(vals + [o.result.value]), o.store))
  {
    assert items[..i + 1] == items[..i] + [items[i]];
    EvalEachSnoc(items[..i], items[i], env, s, fuel);
    if Eval(items[i], env, t, fuel).result.Err? {
      assert items == items[..i + 1] + items[i + 1..];
      EvalEachStops(items[..i + 1], items[i + 1..], env, s, fuel);
    }
  }

  /** `(if c t f)` evaluates the condition and then the branch its truthiness selects, in
      the store the condition left behind. */
  lemma EvalIfForm(c: Value, t: Value, f: Value, env: EnvId, s: Store, fuel: nat)
    requires fuel > 0
    ensures
      var o := Eval(c, env, s, fuel - 1);
      Eval(List([Sym("if"), c, t, f]), env, s, fuel) ==
        if o.result.Err? then o
        else if Truthy(o.result.value) then Eval(t, env, o.store, fuel - 1)
        else Eval(f, env, o.store, fuel - 1)
  {
    var e := List([Sym("if"), c, t, f]);
    assert SpecialFormOf(e) == Some(If);
    assert Eval(e, env, s, fuel) == EvalIf(e, env, s, fuel - 1);
    assert IfParts(e) == Ok((c, t, f));
  }

  /** The branch not taken does not matter. */
  lemma IfIgnoresOtherBranch(c: Value, t: Value, f: Value, other: Value, env: EnvId, s: Store, fuel: nat)
    requires fuel > 0
    ensures
      var o := Eval(c, env, s, fuel - 1);
      o.result.Ok? && Truthy(o.result.value) ==>
        Eval(List([Sym("if"), c, t, f]), env, s, fuel) == Eval(List([Sym("if"), c, t, other]), env, s, fuel)
    ensures
      var o := Eval(c, env, s, fuel - 1);
      o.result.Ok? && !Truthy(o.result.value) ==>
        Eval(List([Sym("if"), c, t, f]), env, s, fuel) == Eval(List([Sym("if"), c, other, f]), env, s, fuel)
  {
    EvalIfForm(c, t, f, env, s, fuel);
    EvalIfForm(c, t, other, env, s, fuel);
    EvalIfForm(c, other, f, env, s, fuel);
  }

  /** A reference reading of `cond`: the clauses are tried in order and the first test
      that is true selects its consequent; when none is, `''` is evaluated.  Each further
      clause costs one level of `_eval`, as the nested `if`s do. */
  function CondClauses(clauses: seq<(Value, Value)>, env: EnvId, s: Store, fuel: nat): Outcome<Value>
    requires |clauses| > 0
    decreases |clauses|
  {
    var o := Eval(clauses[0].0, env, s, fuel);
    if o.result.Err? then o
    else if Truthy(o.result.value) then Eval(clauses[0].1, env, o.store, fuel)
    else if |clauses| == 1 then Eval(Str(""), env, o.store, fuel)
    else if fuel == 0 then Outcome(Err(OutOfFuel), o.store)
    else CondClauses(clauses[1..], env, o.store, fuel - 1)
  }

  /** The clauses of a `cond` as `cond_to_if` reads them. */
  function NormalClauses(clauses: seq<Value>): (r: seq<(Value, Value)>)
    requires forall i | 0 <= i < |clauses| :: Index(clauses[i], 0).Ok?
    ensures |r| == |clauses|
    ensures forall i | 0 <= i < |clauses| :: r[i] == NormalClause(clauses[i])
  {
    if |clauses| == 0 then [] else [NormalClause(clauses[0])] + NormalClauses(clauses[1..])
  }

  /** The outermost `if` of `cond_to_if` tests the first clause and otherwise goes on
      with the `if`s of the other clauses. */
  lemma EvalIfChainHead(clauses: seq<Value>, env: EnvId, s: Store, fuel: nat)
    requires |clauses| > 0 && forall i | 0 <= i < |clauses| :: Index(clauses[i], 0).Ok?
    ensures CondToIf(clauses).Ok? && CondToIf(clauses[1..]).Ok?
    ensures
      var first := NormalClauses(clauses)[0];
      var o := Eval(first.0, env, s, fuel);
      EvalIf(CondToIf(clauses).value, env, s, fuel) ==
        if o.result.Err? then o
        else if Truthy(o.result.value) then Eval(first.1, env, o.store, fuel)
        else Eval(CondToIf(clauses[1..]).value, env, o.store, fuel)
  {
    CondToIfClauses(clauses);
    CondToIfClauses(clauses[1..]);
    var first := NormalClauses(clauses)[0];
    var rest := CondToIf(clauses[1..]).value;
    assert CondToIf(clauses).value == List([Sym("if"), first.0, first.1, rest]);
    assert IfParts(CondToIf(clauses).value) == Ok((first.0, first.1, rest));
  }

  /** Dropping the first clause drops the first normalised clause. */
  lemma NormalClausesTail(clauses: seq<Value>)
    requires |clauses| > 0 && forall i | 0 <= i < |clauses| :: Index(clauses[i], 0).Ok?
    ensures NormalClauses(clauses)[1..] == NormalClauses(clauses[1..])
  {
    assert forall i | 0 <= i < |clauses| - 1 :: clauses[1..][i] == clauses[i + 1];
  }

  /** The `if`s of a non-empty clause list form a special form `if`. */
  lemma EvalIfChainIsIf(clauses: seq<Value>, env: EnvId, s: Store, fuel: nat)
    requires |clauses| > 0 && forall i | 0 <= i < |clauses| :: Index(clauses[i], 0).Ok? && fuel > 0
    ensures CondToIf(clauses).Ok?
    ensures Eval(CondToIf(clauses).value, env, s, fuel) == EvalIf(CondToIf(clauses).value, env, s, fuel - 1)
  {
    EvalIfChainHead(clauses, env, s, fuel);
    var first := NormalClauses(clauses)[0];
    var ifExp := CondToIf(clauses).value;
    assert ifExp == List([Sym("if"), first.0, first.1, CondToIf(clauses[1..]).value]);
    assert SpecialFormOf(ifExp) == Some(If);
  }

  /** Where the first test is an error, is true, or is the last one, the `if`s stop
      where the clauses stop. */
  lemma EvalIfChainStops(clauses: seq<Value>, env: EnvId, s: Store, fuel: nat)
    requires |clauses| > 0 && forall i | 0 <= i < |clauses| :: Index(clauses[i], 0).Ok?
    requires
      var o := Eval(NormalClauses(clauses)[0].0, env, s, fuel);
      o.result.Err? || Truthy(o.result.value) || |clauses| == 1
    ensures CondToIf(clauses).Ok?
    ensures EvalIf(CondToIf(clauses).value, env, s, fuel) == CondClauses(NormalClauses(clauses), env, s, fuel)
  {
    EvalIfChainHead(clauses, env, s, fuel);
    if |clauses| == 1 {
      assert clauses[1..] == [];
    }
  }

  /** Where the first test is false, the `if`s go on as the remaining clauses do. */
  lemma {:induction false} EvalIfChainGoesOn(clauses: seq<Value>, env: EnvId, s: Store, fuel: nat)
    requires |clauses| > 1 && forall i | 0 <= i < |clauses| :: Index(clauses[i], 0).Ok?
    requires
      var o := Eval(NormalClauses(clauses)[0].0, env, s, fuel);
      o.result.Ok? && !Truthy(o.result.value)
    ensures CondToIf(clauses).Ok?
    ensures EvalIf(CondToIf(clauses).value, env, s, fuel) == CondClauses(NormalClauses(clauses), env, s, fuel)
    decreases fuel, 1
  {
    var o := Eval(NormalClauses(clauses)[0].0, env, s, fuel);
    EvalIfChainHeadFalse(clauses, env, s, fuel);
    CondClausesGoOnTail(clauses, env, s, fuel);
    if fuel > 0 {
      EvalIfChainRest(clauses[1..], env, o.store, fuel);
    }
  }

  /** The `if`s of the remaining clauses, as an expression evaluated with one more unit
      of fuel than the clauses they stand for. */
  lemma {:induction false} EvalIfChainRest(clauses: seq<Value>, env: EnvId, t: Store, fuel: nat)
    requires fuel > 0 && |clauses| > 0 && forall i | 0 <= i < |clauses| :: Index(clauses[i], 0).Ok?
    ensures CondToIf(clauses).Ok?
    ensures Eval(CondToIf(clauses).value, env, t, fuel) == CondClauses(NormalClauses(clauses), env, t, fuel - 1)
    decreases fuel, 0
  {
    EvalIfChainIsIf(clauses, env, t, fuel);
    var ifExp := CondToIf(clauses).value;
    EvalIfChain(clauses, env, t, fuel - 1);
    assert EvalIf(ifExp, env, t, fuel - 1) == CondClauses(NormalClauses(clauses), env, t, fuel - 1);
  }

  /** `EvalIfChainHead` where the first test is false. */
  lemma EvalIfChainHeadFalse(clauses: seq<Value>, env: EnvId, s: Store, fuel: nat)
    requires |clauses| > 0 && forall i | 0 <= i < |clauses| :: Index(clauses[i], 0).Ok?
    requires
      var o := Eval(NormalClauses(clauses)[0].0, env, s, fuel);
      o.result.Ok? && !Truthy(o.result.value)
    ensures CondToIf(clauses).Ok? && CondToIf(clauses[1..]).Ok?
    ensures
      var o := Eval(NormalClauses(clauses)[0].0, env, s, fuel);
      EvalIf(CondToIf(clauses).value, env, s, fuel) == Eval(CondToIf(clauses[1..]).value, env, o.store, fuel)
  {
    EvalIfChainHead(clauses, env, s, fuel);
  }

  /** `CondClausesGoOn` on the clauses as `cond_to_if` reads them. */
  lemma CondClausesGoOnTail(clauses: seq<Value>, env: EnvId, s: Store, fuel: nat)
    requires |clauses| > 1 && forall i | 0 <= i < |clauses| :: Index(clauses[i], 0).Ok?
    requires
      var o := Eval(NormalClauses(clauses)[0].0, env, s, fuel);
      o.result.Ok? && !Truthy(o.result.value)
    ensures forall i | 0 <= i < |clauses[1..]| :: Index(clauses[1..][i], 0).Ok?
    ensures
      var o := Eval(NormalClauses(clauses)[0].0, env, s, fuel);
      CondClauses(NormalClauses(clauses), env, s, fuel) ==
        if fuel == 0 then Outcome(Err(OutOfFuel), o.store) else CondClauses(NormalClauses(clauses[1..]), env, o.store, fuel - 1)
  {
    TailClausesOk(clauses);
    NormalClausesTail(clauses);
    CondClausesGoOn(NormalClauses(clauses), env, s, fuel);
  }

  /** Past a false first test, the clauses go on with the rest, one unit of fuel down. */
  lemma CondClausesGoOn(n: seq<(Value, Value)>, env: EnvId, s: Store, fuel: nat)
    requires |n| > 1
    requires
      var o := Eval(n[0].0, env, s, fuel);
      o.result.Ok? && !Truthy(o.result.value)
    ensures
      var o := Eval(n[0].0, env, s, fuel);
      CondClauses(n, env, s, fuel) ==
        if fuel == 0 then Outcome(Err(OutOfFuel), o.store) else CondClauses(n[1..], env, o.store, fuel - 1)
  {
  }

  /** Every clause after the first still has a first element. */
  lemma TailClausesOk(clauses: seq<Value>)
    requires |clauses| > 0 && forall i | 0 <= i < |clauses| :: Index(clauses[i], 0).Ok?
    ensures forall i | 0 <= i < |clauses[1..]| :: Index(clauses[1..][i], 0).Ok?
  {
    assert forall i | 0 <= i < |clauses| - 1 :: clauses[1..][i] == clauses[i + 1];
  }

  /** The nested `if`s of `cond_to_if` evaluate as the clauses tried in order. */
  lemma {:induction false} EvalIfChain(clauses: seq<Value>, env: EnvId, s: Store, fuel: nat)
    requires |clauses| > 0 && forall i | 0 <= i < |clauses| :: Index(clauses[i], 0).Ok?
    ensures CondToIf(clauses).Ok?
    ensures EvalIf(CondToIf(clauses).value, env, s, fuel) == CondClauses(NormalClauses(clauses), env, s, fuel)
    decreases fuel, 2
  {
    var o := Eval(NormalClauses(clauses)[0].0, env, s, fuel);
    if o.result.Err? || Truthy(o.result.value) || |clauses| == 1 {
      EvalIfChainStops(clauses, env, s, fuel);
    } else {
      EvalIfChainGoesOn(clauses, env, s, fuel);
    }
  }

  /** `cond` picks the first clause whose test is true, with `else` counting as `true`;
      with no true test it ends evaluating `''`. */
  lemma EvalCondPicksFirstTrue(clauses: seq<Value>, env: EnvId, s: Store, fuel: nat)
    requires fuel > 0 && |clauses| > 0 && forall i | 0 <= i < |clauses| :: Index(clauses[i], 0).Ok?
    ensures Eval(List([Sym("cond")] + clauses), env, s, fuel) == CondClauses(NormalClauses(clauses), env, s, fuel - 1)
  {
    var exp := List([Sym("cond")] + clauses);
    assert exp.items[1..] == clauses;
    assert SpecialFormOf(exp) == Some(Cond);
    assert Eval(exp, env, s, fuel) == EvalCond(exp, env, s, fuel - 1);
    EvalIfChain(clauses, env, s, fuel - 1);
  }

  /** `(cond)` with no clause at all: `cond_to_if` gives `''`, whose parts `''[1]`,
      `''[2]`, `''[3]` are nil, so the condition evaluated is nil itself, a failed lookup
      unless some frame has the key nil.  The store is unchanged. */
  lemma EvalCondEmpty(env: EnvId, s: Store, fuel: nat)
    requires fuel >= 2
    ensures Eval(List([Sym("cond")]), env, s, fuel) == Outcome(LookupVar(Nil, Chain(s, env)), s)
  {
    var exp := List([Sym("cond")]);
    assert SpecialFormOf(exp) == Some(Cond);
    assert Eval(exp, env, s, fuel) == EvalCond(exp, env, s, fuel - 1);
    assert CondToIf(Cdr(exp).value.items) == Ok(Str(""));
    assert IfParts(Str("")) == Ok((Nil, Nil, Nil));
    assert Eval(Nil, env, s, fuel - 1) == Outcome(LookupVar(Nil, Chain(s, env)), s);
    assert EvalCond(exp, env, s, fuel - 1) == EvalIf(Str(""), env, s, fuel - 1);
  }

  /** A clause list `cond_to_if` cannot read is refused before any test is evaluated. */
  lemma EvalCondMalformed(clauses: seq<Value>, env: EnvId, s: Store, fuel: nat)
    requires fuel > 0 && exists i | 0 <= i < |clauses| :: Index(clauses[i], 0).Err?
    ensures Eval(List([Sym("cond")] + clauses), env, s, fuel).result.Err?
    ensures Eval(List([Sym("cond")] + clauses), env, s, fuel).store == s
  {
    var exp := List([Sym("cond")] + clauses);
    assert exp.items[1..] == clauses;
    assert SpecialFormOf(exp) == Some(Cond);
    assert Eval(exp, env, s, fuel) == EvalCond(exp, env, s, fuel - 1);
    CondToIfClauses(clauses);
  }

  /** `((lambda (p...) body) e...)`: the arguments are evaluated left to right in the
      current environment, then the body in a new environment binding the parameters to
      their values in front of the captured (here: the current) one. */
  lemma EvalLambdaApplication(params: seq<Value>, body: Value, inits: seq<Value>, env: EnvId, s: Store, fuel: nat)
    requires fuel >= 2
    ensures
      var o := EvalEach(inits, env, s, fuel - 1);
      Eval(LambdaApplication(params, body, inits), env, s, fuel) ==
        if o.result.Err? then Outcome(Err(o.result.error), o.store)
        else Eval(body, ExtendEnv(params, o.result.value, env, o.store).0, ExtendEnv(params, o.result.value, env, o.store).1, fuel - 1)
  {
    var app := LambdaApplication(params, body, inits);
    var lam := List([Sym("lambda"), List(params), body]);
    assert app.items[0] == lam;
    assert SpecialFormOf(app) == None;
    assert Cdr(app) == Ok(List(inits)) by {
      assert app.items[1..] == inits;
    }
    assert SpecialFormOf(lam) == Some(Lambda);
    assert Eval(lam, env, s, fuel - 1) == Outcome(Ok(Closure(List(params), body, env)), s);
    var o := EvalEach(inits, env, s, fuel - 1);
    if o.result.Ok? {
      var c := Closure(List(params), body, env);
      assert Apply(c, o.result.value, o.store, fuel - 1) == LambdaApply(c, o.result.value, o.store, fuel - 1);
    }
  }

  /** The bindings of a `let` read back as its names and initialisers. */
  lemma LetBindingsParts(params: seq<Value>, inits: seq<Value>, body: Value)
    requires |inits| == |params|
    ensures
      var exp := List([Sym("let"), List(seq(|params|, i requires 0 <= i < |params| => List([params[i], inits[i]]))), body]);
      LetToParametersArgsBody(exp) == Ok(LetParts(params, inits, body))
  {
    var bindings := seq(|params|, i requires 0 <= i < |params| => List([params[i], inits[i]]));
    assert forall i | 0 <= i < |bindings| :: Index(bindings[i], 0) == Ok(params[i]) && Index(bindings[i], 1) == Ok(inits[i]);
    var bp := BindingParts(bindings);
    assert bp.Ok?;
    assert bp.value.0 == params;
    assert bp.value.1 == inits;
  }

  /** `(let ((v e) ...) body)`: the initialisers are evaluated left to right in the
      environment of the `let`, and the body in a new environment binding the names to
      their values in front of it. */
  lemma EvalLetSpec(params: seq<Value>, inits: seq<Value>, body: Value, env: EnvId, s: Store, fuel: nat)
    requires fuel >= 3 && |inits| == |params|
    ensures
      var exp := List([Sym("let"), List(seq(|params|, i requires 0 <= i < |params| => List([params[i], inits[i]]))), body]);
      var o := EvalEach(inits, env, s, fuel - 2);
      Eval(exp, env, s, fuel) ==
        if o.result.Err? then Outcome(Err(o.result.error), o.store)
        else Eval(body, ExtendEnv(params, o.result.value, env, o.store).0, ExtendEnv(params, o.result.value, env, o.store).1, fuel - 2)
  {
    var exp := List([Sym("let"), List(seq(|params|, i requires 0 <= i < |params| => List([params[i], inits[i]]))), body]);
    LetBindingsParts(params, inits, body);
    assert SpecialFormOf(exp) == Some(Let);
    EvalLetParts(exp, params, inits, body, env, s, fuel);
  }

  /** The same for any `let` form whose parts are `params`, `inits` and `body`. */
  lemma EvalLetParts(exp: Value, params: seq<Value>, inits: seq<Value>, body: Value, env: EnvId, s: Store, fuel: nat)
    requires fuel >= 3 && SpecialFormOf(exp) == Some(Let)
    requires LetToParametersArgsBody(exp) == Ok(LetParts(params, inits, body))
    ensures
      var o := EvalEach(inits, env, s, fuel - 2);
      Eval(exp, env, s, fuel) ==
        if o.result.Err? then Outcome(Err(o.result.error), o.store)
        else Eval(body, ExtendEnv(params, o.result.value, env, o.store).0, ExtendEnv(params, o.result.value, env, o.store).1, fuel - 2)
  {
    assert Eval(exp, env, s, fuel) == EvalLet(exp, env, s, fuel - 1);
    assert EvalLet(exp, env, s, fuel - 1) == Eval(LambdaApplication(params, body, inits), env, s, fuel - 1);
    EvalLambdaApplication(params, body, inits, env, s, fuel - 1);
  }

  /** `letrec`'s backpatch: when the frame it writes into is still the one it made, binding
      every name to `:dummy`, the frame afterwards binds exactly the names to their values,
      with no placeholder left. */
  lemma LetrecBackpatch(params: seq<Value>, vals: seq<Value>, ext: EnvId, t: Store)
    requires |ChainIds(t, ext)| > 0 && ChainIds(t, ext)[0] < |t.frames|
    requires FrameAt(t, ChainIds(t, ext)[0]) == Bind(map[], params, DummyArgs(params))
    ensures FrameAt(SetExtendEnvQ(params, vals, ext, t), ChainIds(t, ext)[0]) == Bind(map[], params, vals)
  {
    BindOverwrites(map[], params, DummyArgs(params), vals);
  }

  /** `eval_letrec` step by step: a new environment whose new frame binds every name to
      `:dummy` in front of the current chain, the initialisers evaluated there, the
      backpatch of its innermost frame, then the `let`-style application in that same
      environment. */
  lemma EvalLetrecSpec(exp: Value, env: EnvId, s: Store, fuel: nat)
    requires WellFormed(s) && env < |s.chains|
    requires fuel > 0 && SpecialFormOf(exp) == Some(Letrec) && LetToParametersArgsBody(exp).Ok?
    ensures
      var p := LetToParametersArgsBody(exp).value;
      var (ext, s1) := ExtendEnv(p.params, DummyArgs(p.params), env, s);
      Chain(s1, ext) == [Bind(map[], p.params, DummyArgs(p.params))] + Chain(s, env)
    ensures
      var p := LetToParametersArgsBody(exp).value;
      var (ext, s1) := ExtendEnv(p.params, DummyArgs(p.params), env, s);
      var o := EvalEach(p.args, ext, s1, fuel - 1);
      Eval(exp, env, s, fuel) ==
        if o.result.Err? then Outcome(Err(o.result.error), o.store)
        else Eval(LambdaApplication(p.params, p.body, p.args), ext, SetExtendEnvQ(p.params, o.result.value, ext, o.store), fuel - 1)
  {
    var p := LetToParametersArgsBody(exp).value;
    ExtendEnvChains(p.params, DummyArgs(p.params), env, s);
    assert Eval(exp, env, s, fuel) == EvalLetrec(exp, env, s, fuel - 1);
  }

  /** `define` of a name some frame already owns overwrites that frame's entry (the frame
      found before the value was evaluated), adds no frame and gives nil. */
  lemma DefineExisting(exp: Value, env: EnvId, s: Store, fuel: nat)
    requires fuel > 0 && SpecialFormOf(exp) == Some(Define)
    requires LookupVarRef(DefineParts(exp).0, s, env).Some?
    ensures
      var (name, valExp) := DefineParts(exp);
      var id := LookupVarRef(name, s, env).value;
      var o := Eval(valExp, env, s, fuel - 1);
      var r := Eval(exp, env, s, fuel);
      o.result.Ok? ==>
        r.result == Ok(Nil) && r.store.chains == o.store.chains &&
        (id < |o.store.frames| ==> FrameAt(r.store, id) == FrameAt(o.store, id)[name := o.result.value]) &&
        (forall other | other != id :: FrameAt(r.store, other) == FrameAt(o.store, other))
    ensures
      var o := Eval(DefineParts(exp).1, env, s, fuel - 1);
      o.result.Err? ==> Eval(exp, env, s, fuel) == o
  {
    assert Eval(exp, env, s, fuel) == EvalDefine(exp, env, s, fuel - 1);
  }

  /** `define` of a name no frame owns unshifts exactly one frame `{name => value}` into
      the current environment object and gives nil. */
  lemma DefineNew(exp: Value, env: EnvId, s: Store, fuel: nat)
    requires fuel > 0 && SpecialFormOf(exp) == Some(Define)
    requires LookupVarRef(DefineParts(exp).0, s, env).None?
    ensures
      var (name, valExp) := DefineParts(exp);
      var o := Eval(valExp, env, s, fuel - 1);
      var r := Eval(exp, env, s, fuel);
      o.result.Ok? ==>
        r.result == Ok(Nil) && r.store.frames == o.store.frames + [map[name := o.result.value]] &&
        |r.store.chains| == |o.store.chains| &&
        (env < |o.store.chains| ==> r.store.chains[env] == [|o.store.frames|] + o.store.chains[env]) &&
        (forall e | 0 <= e < |o.store.chains| && e != env :: r.store.chains[e] == o.store.chains[e])
  {
    assert Eval(exp, env, s, fuel) == EvalDefine(exp, env, s, fuel - 1);
    var (name, valExp) := DefineParts(exp);
    var o := Eval(valExp, env, s, fuel - 1);
    if o.result.Ok? {
      assert Bind(map[], [name], [o.result.value]) == map[name := o.result.value];
    }
  }

  /** A closure made in `env` before a `define` of a new name in `env` sees that name
      when it is applied afterwards, because the define unshifts its frame into the very
      environment object the closure holds; this is what lets a function defined with
      `define` call itself.  Here the closure's body is the name itself. */
  lemma ClosureSeesLaterDefine(params: seq<Value>, args: seq<Value>, name: Value, valExp: Value, v: Value,
                               env: EnvId, s: Store, fuel: nat)
    requires WellFormed(s) && env < |s.chains| && fuel >= 2
    requires !name.List? && !name.Num? && name !in params && LookupVarRef(name, s, env).None?
    requires Eval(valExp, env, s, fuel - 1) == Outcome(Ok(v), s) && v != Nil
    ensures
      var t := Eval(List([Sym("define"), name, valExp]), env, s, fuel).store;
      Apply(Closure(List(params), name, env), args, t, fuel).result == Ok(v)
  {
    DefineNewFront(name, valExp, v, env, s, fuel);
    var t := Eval(List([Sym("define"), name, valExp]), env, s, fuel).store;
    ClosureSeesFront(params, args, name, v, env, t, fuel);
  }

  /** The store a `define` of a new name leaves: the frame `{name => value}` in front of
      the chain of `env`, whose other frames are as they were. */
  lemma DefineNewFront(name: Value, valExp: Value, v: Value, env: EnvId, s: Store, fuel: nat)
    requires WellFormed(s) && env < |s.chains| && fuel >= 2
    requires !name.List? && LookupVarRef(name, s, env).None?
    requires Eval(valExp, env, s, fuel - 1) == Outcome(Ok(v), s)
    ensures
      var t := Eval(List([Sym("define"), name, valExp]), env, s, fuel).store;
      ChainAllocated(t, env) && |Chain(t, env)| > 0 && Chain(t, env)[0] == map[name := v] && Chain(t, env)[1..] == Chain(s, env)
  {
    var exp := List([Sym("define"), name, valExp]);
    assert SpecialFormOf(exp) == Some(Define);
    assert DefineParts(exp) == (name, valExp);
    DefineNewFrontOf(exp, name, valExp, v, env, s, fuel);
  }

  /** The same, for any `define` form whose parts are `name` and `valExp`. */
  lemma DefineNewFrontOf(exp: Value, name: Value, valExp: Value, v: Value, env: EnvId, s: Store, fuel: nat)
    requires WellFormed(s) && env < |s.chains| && fuel >= 2
    requires SpecialFormOf(exp) == Some(Define) && DefineParts(exp) == (name, valExp)
    requires LookupVarRef(name, s, env).None?
    requires Eval(valExp, env, s, fuel - 1) == Outcome(Ok(v), s)
    ensures
      var t := Eval(exp, env, s, fuel).store;
      ChainAllocated(t, env) && |Chain(t, env)| > 0 && Chain(t, env)[0] == map[name := v] && Chain(t, env)[1..] == Chain(s, env)
  {
    DefineNew(exp, env, s, fuel);
    FrontFrame(s, Eval(exp, env, s, fuel).store, env, map[name := v]);
  }

  /** A store that appended frame `m` and unshifted it into `env`, changing nothing else
      of `env`, has `m` in front of the old chain of `env`. */
  lemma FrontFrame(s: Store, t: Store, env: EnvId, m: map<Value, Value>)
    requires WellFormed(s) && env < |s.chains| && env < |t.chains|
    requires t.frames == s.frames + [m] && t.chains[env] == [|s.frames|] + s.chains[env]
    ensures ChainAllocated(t, env) && |Chain(t, env)| > 0 && Chain(t, env)[0] == m && Chain(t, env)[1..] == Chain(s, env)
  {
    assert ChainIds(t, env) == [|s.frames|] + ChainIds(s, env);
    forall i | 0 <= i < |ChainIds(s, env)| ensures FrameAt(t, ChainIds(s, env)[i]) == FrameAt(s, ChainIds(s, env)[i]) {
      assert ChainIds(s, env)[i] < |s.frames|;
    }
    assert Chain(t, env)[1..] == Chain(s, env);
  }

  /** A closure of `env` whose body is `name`, applied where the innermost frame of `env`
      binds `name` to `v` and the parameters do not mention `name`, returns `v`. */
  lemma ClosureSeesFront(params: seq<Value>, args: seq<Value>, name: Value, v: Value, env: EnvId, t: Store, fuel: nat)
    requires ChainAllocated(t, env) && |Chain(t, env)| > 0 && Chain(t, env)[0] == map[name := v]
    requires !name.List? && !name.Num? && name !in params && v != Nil && fuel > 0
    ensures Apply(Closure(List(params), name, env), args, t, fuel).result == Ok(v)
  {
    var clo := Closure(List(params), name, env);
    var (e, u) := ExtendEnv(params, args, env, t);
    ApplySpec(clo, args, t, fuel);
    EvalAtom(name, e, u, fuel);
    ExtendEnvChains(params, args, env, t);
    BindSpec(map[], params, args);
    LookupPastFrame(name, v, Bind(map[], params, args), Chain(t, env));
  }

  /** A name the innermost frame does not bind is found one frame further out. */
  lemma LookupPastFrame(name: Value, v: Value, b: map<Value, Value>, chain: seq<map<Value, Value>>)
    requires name !in b && |chain| > 0 && chain[0] == map[name := v] && v != Nil
    ensures LookupVar(name, [b] + chain) == Ok(v)
  {
    assert chain == [map[name := v]] + chain[1..];
    LookupShadowing(name, b, chain);
    LookupShadowing(name, map[name := v], chain[1..]);
  }

  /** `(define (f p...) body)` is exactly `(define f (lambda (p...) body))`. */
  lemma DefineShorthand(f: Value, params: seq<Value>, body: Value, env: EnvId, s: Store, fuel: nat)
    requires !f.List?
    ensures Eval(List([Sym("define"), List([f] + params), body]), env, s, fuel)
         == Eval(List([Sym("define"), f, List([Sym("lambda"), List(params), body])]), env, s, fuel)
  {
    var short := List([Sym("define"), List([f] + params), body]);
    var long := List([Sym("define"), f, List([Sym("lambda"), List(params), body])]);
    assert ([f] + params)[1..] == params;
    assert DefineParts(short) == DefineParts(long);
    if fuel > 0 {
      assert Eval(short, env, s, fuel) == EvalDefine(short, env, s, fuel - 1);
      assert Eval(long, env, s, fuel) == EvalDefine(long, env, s, fuel - 1);
    }
  }

  /** `set!` of a name no frame owns raises before its value expression is evaluated,
      so the store is untouched whatever that expression would do. */
  lemma SetqUnbound(name: Value, valExp: Value, env: EnvId, s: Store, fuel: nat)
    requires fuel > 0 && LookupVarRef(name, s, env).None?
    ensures Eval(List([Sym("setq"), name, valExp]), env, s, fuel) == Outcome(Err(UndefinedVariable(name)), s)
  {
    var exp := List([Sym("setq"), name, valExp]);
    assert SpecialFormOf(exp) == Some(Setq);
    assert Eval(exp, env, s, fuel) == EvalSetq(exp, env, s, fuel - 1);
    assert SetqParts(exp) == (name, valExp);
  }

  /** `set!` of an owned name overwrites only the owning frame's entry for that name,
      adds no frame and gives nil. */
  lemma SetqBound(name: Value, valExp: Value, env: EnvId, s: Store, fuel: nat)
    requires fuel > 0 && LookupVarRef(name, s, env).Some?
    ensures
      var id := LookupVarRef(name, s, env).value;
      var o := Eval(valExp, env, s, fuel - 1);
      var r := Eval(List([Sym("setq"), name, valExp]), env, s, fuel);
      (o.result.Err? ==> r == o) &&
      (o.result.Ok? ==>
        r.result == Ok(Nil) && r.store.chains == o.store.chains &&
        (id < |o.store.frames| ==> FrameAt(r.store, id) == FrameAt(o.store, id)[name := o.result.value]) &&
        (forall other | other != id :: FrameAt(r.store, other) == FrameAt(o.store, other)))
  {
    var exp := List([Sym("setq"), name, valExp]);
    var id := LookupVarRef(name, s, env).value;
    var o := Eval(valExp, env, s, fuel - 1);
    assert SpecialFormOf(exp) == Some(Setq);
    assert SetqParts(exp) == (name, valExp);
    assert EvalSetq(exp, env, s, fuel - 1) ==
      if o.result.Err? then o else Outcome(Ok(Nil), Assign(o.store, id, name, o.result.value));
    assert Eval(exp, env, s, fuel) == EvalSetq(exp, env, s, fuel - 1);
  }
}
