/** Recognising special forms and the purely syntactic work done on them: picking out
    their parts and rewriting `cond` into nested `if`s and `let` into the application of
    a `lambda`. */
module SpecialForms {
  import opened Values
  import opened ListPrimitives

  datatype Form = Lambda | Let | Letrec | If | Cond | Define | Quote | Setq

  /** The head symbol that selects each form (`set!` reaches the evaluator as `setq`). */
  function FormName(f: Form): string
  {
    match f
    case Lambda => "lambda"
    case Let => "let"
    case Letrec => "letrec"
    case If => "if"
    case Cond => "cond"
    case Define => "define"
    case Quote => "quote"
    case Setq => "setq"
  }

  /** `special_form?` together with the tests `lambda?`, `let?`, ... of
      `eval_special_form`: a list is a special form exactly when `exp[0]` is one of the
      eight head symbols. */
  function SpecialFormOf(exp: Value): (r: Option<Form>)
    ensures r.Some? ==> exp.List? && |exp.items| > 0 && exp.items[0] == Sym(FormName(r.value))
    ensures r.None? ==> forall f: Form :: !(exp.List? && Nth(exp.items, 0) == Sym(FormName(f)))
  {
    if !exp.List? then None
    else
      var head := Nth(exp.items, 0);
      if head == Sym("lambda") then Some(Lambda)
      else if head == Sym("let") then Some(Let)
      else if head == Sym("letrec") then Some(Letrec)
      else if head == Sym("if") then Some(If)
      else if head == Sym("cond") then Some(Cond)
      else if head == Sym("define") then Some(Define)
      else if head == Sym("quote") then Some(Quote)
      else if head == Sym("setq") then Some(Setq)
      else None
  }

  /** `make_closure`: `[:closure, exp[1], exp[2], env]`; the body is not looked at. */
  function MakeClosure(exp: Value, env: EnvId): (c: Value)
    requires exp.List?
  {
    Closure(Nth(exp.items, 1), Nth(exp.items, 2), env)
  }

  /** `eval_quote`: `car(cdr(exp))`, which is the quoted expression `exp[1]` itself. */
  function EvalQuote(exp: Value): (r: Result<Value>)
    requires exp.List? && |exp.items| > 0
    ensures r == Ok(Nth(exp.items, 1))
  {
    match Cdr(exp)
    case Ok(rest) => Car(rest)
    case Err(e) => Err(e)
  }

  /** The name and the value expression of a `define`: `define_var_val` for
      `(define name expr)` and `define_with_parameter_var_val` for the function shorthand
      `(define (name p...) body)`, whose value is `(lambda (p...) body)`. */
  function DefineParts(exp: Value): (r: (Value, Value))
    requires exp.List?
  {
    var target := Nth(exp.items, 1);
    if target.List? then (Car(target).value, List([Sym("lambda"), Cdr(target).value, Nth(exp.items, 2)]))
    else (target, Nth(exp.items, 2))
  }

  /** `setq_to_var_val`. */
  function SetqParts(exp: Value): (r: (Value, Value))
    requires exp.List?
  {
    (Nth(exp.items, 1), Nth(exp.items, 2))
  }

  /** `if_to_cond_true_false`: `exp[1]`, `exp[2]`, `exp[3]`. */
  function IfParts(exp: Value): (r: Result<(Value, Value, Value)>)
    ensures r.Ok? <==> Index(exp, 1).Ok?
  {
    match Index(exp, 1)
    case Err(e) => Err(e)
    case Ok(c) => Ok((c, Index(exp, 2).value, Index(exp, 3).value))
  }

  /** `cond_to_if`: one `[:if, test, consequent, rest]` per clause, in order, where a
      test `else` becomes `true`, ending in the empty string `''`. */
  function CondToIf(clauses: seq<Value>): (r: Result<Value>)
  {
    if |clauses| == 0 then Ok(Str(""))
    else
      var e := clauses[0];
      match Index(e, 0)
      case Err(err) => Err(err)
      case Ok(p) =>
        var test := if p == Sym("else") then Sym("true") else p;
        match CondToIf(clauses[1..])
        case Err(err) => Err(err)
        case Ok(rest) => Ok(List([Sym("if"), test, Index(e, 1).value, rest]))
  }

  /** The clause `(test consequent)` as `cond_to_if` reads it: `else` is `true`. */
  function NormalClause(e: Value): (c: (Value, Value))
    requires Index(e, 0).Ok?
  {
    var p := Index(e, 0).value;
    (if p == Sym("else") then Sym("true") else p, Index(e, 1).value)
  }

  /** Reads a chain of nested `if`s back as the clauses it tests, in order. */
  function IfChainClauses(v: Value): seq<(Value, Value)>
  {
    if v.List? && |v.items| == 4 && v.items[0] == Sym("if")
    then [(v.items[1], v.items[2])] + IfChainClauses(v.items[3])
    else []
  }

  /** What ends a chain of nested `if`s. */
  function IfChainEnd(v: Value): Value
  {
    if v.List? && |v.items| == 4 && v.items[0] == Sym("if") then IfChainEnd(v.items[3]) else v
  }

  /** `cond_to_if` succeeds exactly when every clause can be indexed; it then produces
      one `if` per clause, in the order of the clauses, and ends in `''`. */
  lemma {:induction false} CondToIfClauses(clauses: seq<Value>)
    ensures CondToIf(clauses).Ok? <==> forall i | 0 <= i < |clauses| :: Index(clauses[i], 0).Ok?
    ensures CondToIf(clauses).Ok? ==>
      IfChainClauses(CondToIf(clauses).value) == seq(|clauses|, i requires 0 <= i < |clauses| => NormalClause(clauses[i]))
    ensures CondToIf(clauses).Ok? ==> IfChainEnd(CondToIf(clauses).value) == Str("")
  {
    if |clauses| > 0 {
      CondToIfClauses(clauses[1..]);
      if CondToIf(clauses).Ok? {
        var tail := seq(|clauses| - 1, i requires 0 <= i < |clauses| - 1 => NormalClause(clauses[1..][i]));
        assert IfChainClauses(CondToIf(clauses).value) == [NormalClause(clauses[0])] + tail;
      }
      if forall i | 0 <= i < |clauses| :: Index(clauses[i], 0).Ok? {
        assert forall i | 0 <= i < |clauses| - 1 :: Index(clauses[1..][i], 0).Ok?;
      }
    }
  }

  /** The parts of `(let ((v1 e1) ...) body)`: `exp[1].map{|e| e[0]}`,
      `exp[1].map{|e| e[1]}` and `exp[2]`. */
  datatype LetParts = LetParts(params: seq<Value>, args: seq<Value>, body: Value)

  /** The names and initialisers of a list of bindings. */
  function BindingParts(bindings: seq<Value>): (r: Result<(seq<Value>, seq<Value>)>)
    ensures r.Ok? ==> |r.value.0| == |bindings| && |r.value.1| == |bindings|
    ensures r.Ok? ==> forall i | 0 <= i < |bindings| ::
      Index(bindings[i], 0) == Ok(r.value.0[i]) && Index(bindings[i], 1) == Ok(r.value.1[i])
    ensures r.Ok? <==> forall i | 0 <= i < |bindings| :: Index(bindings[i], 0).Ok?
  {
    if |bindings| == 0 then Ok(([], []))
    else
      match Index(bindings[0], 0)
      case Err(err) => Err(err)
      case Ok(p) =>
        match BindingParts(bindings[1..])
        case Err(err) => Err(err)
        case Ok(rest) => Ok(([p] + rest.0, [Index(bindings[0], 1).value] + rest.1))
  }

  /** `let_to_parameters_args_body` (also `letrec_to_parameters_args_body`); the binding
      list must be an array, as `map` is called on it. */
  function LetToParametersArgsBody(exp: Value): (r: Result<LetParts>)
    requires exp.List?
  {
    var bindings := Nth(exp.items, 1);
    if !bindings.List? then Err(WrongKind(bindings))
    else match BindingParts(bindings.items)
      case Err(err) => Err(err)
      case Ok(pa) => Ok(LetParts(pa.0, pa.1, Nth(exp.items, 2)))
  }

  /** `[[:lambda, params, body]] + args`, the expression a `let` is rewritten to. */
  function LambdaApplication(params: seq<Value>, body: Value, args: seq<Value>): (e: Value)
  {
    List([List([Sym("lambda"), List(params), body])] + args)
  }
}
