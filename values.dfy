/** Runtime values and expressions of the evaluator.

    The interpreter uses one representation for code and data: an expression tree is a
    value, and `quote` hands it back unevaluated.  Ruby symbols, integers, booleans, nil,
    strings and arrays become the variants below; the two tagged arrays the interpreter
    builds itself, `[:prim, lambda]` and `[:closure, params, body, env]`, get variants of
    their own.  A closure refers to its environment by an `EnvId`, an address in the store
    of module Environment, so that the environment stays shared and mutable. */
module Values {

  /** Address of an environment (a chain of frames) in the store. */
  type EnvId = nat

  /** Address of a frame (one hash from names to values) in the store. */
  type FrameId = nat

  /** The native procedures of the global frames. */
  datatype PrimOp =
    | Add | Sub | Mul | Gt | Ge | Lt | Le | Equal   // $primitive_fun_env
    | NullP | ConsOp | CarOp | CdrOp | ListOp      // $list_env

  datatype Value =
    | Sym(name: string)
    | Num(n: int)
    | Bool(b: bool)
    | Nil
    | Str(chars: string)
    | List(items: seq<Value>)
    | Prim(op: PrimOp)
    | Closure(params: Value, body: Value, env: EnvId)

  /** The ways evaluation is aborted: the source's own `raise`s and the host errors Ruby
      raises when an operation meets a value of the wrong kind. */
  datatype Error =
    | UnboundVariable(name: Value)      // lookup_var: "couldn't find value to variables"
    | UndefinedVariable(name: Value)    // eval_setq: "undefined variable"
    | ConsOntoNonList(tail: Value)      // cons: "sorry, we haven't implemented yet..."
    | WrongKind(culprit: Value)         // NoMethodError / TypeError from the host
    | WrongArity(op: PrimOp, given: nat) // ArgumentError from a primitive lambda
    | NotApplicable(fun: Value)         // applying something that is no procedure
    | OutOfFuel                         // recursion deeper than the fuel allows
    | LogFailed                         // `pp` raised while a log message was built

  datatype Result<T> = Ok(value: T) | Err(error: Error)

  datatype Option<T> = None | Some(value: T)

  /** Ruby's `items[i]` on an array: nil past the end. */
  function Nth(items: seq<Value>, i: nat): (v: Value)
  {
    if i < |items| then items[i] else Nil
  }

  function Pow2(i: nat): (p: nat)
    ensures p >= 1
  {
    if i == 0 then 1 else 2 * Pow2(i - 1)
  }

  /** Ruby's `Integer#[]`: bit `i` of the two's-complement representation of `n`. */
  function Bit(n: int, i: nat): (b: int)
    ensures b == 0 || b == 1
  {
    (n / Pow2(i)) % 2
  }

  /** Ruby's `v[i]` for the kinds of value that answer it: arrays give their element or
      nil, strings and symbols a one-character string or nil, integers a bit. */
  function Index(v: Value, i: nat): (r: Result<Value>)
    ensures r.Err? <==> !(v.List? || v.Str? || v.Sym? || v.Num?)
    ensures v.List? ==> r == Ok(Nth(v.items, i))
  {
    match v
    case List(items) => Ok(Nth(items, i))
    case Str(cs) => Ok(if i < |cs| then Str([cs[i]]) else Nil)
    case Sym(name) => Ok(if i < |name| then Str([name[i]]) else Nil)
    case Num(n) => Ok(Num(Bit(n, i)))
    case _ => Err(WrongKind(v))
  }

  /** Ruby's truthiness: only `false` and `nil` are false. */
  predicate Truthy(v: Value)
  {
    v != Bool(false) && v != Nil
  }

  /** Every closure inside `v` refers to one of the first `envCount` environments. */
  predicate Within(v: Value, envCount: nat)
  {
    match v
    case List(items) => forall i | 0 <= i < |items| :: Within(items[i], envCount)
    case Closure(ps, body, e) => e < envCount && Within(ps, envCount) && Within(body, envCount)
    case _ => true
  }

  lemma {:induction false} WithinMono(v: Value, n: nat, m: nat)
    requires Within(v, n) && n <= m
    ensures Within(v, m)
  {
    match v
    case List(items) =>
      forall i | 0 <= i < |items| ensures Within(items[i], m) {
        WithinMono(items[i], n, m);
      }
    case Closure(ps, body, e) =>
      WithinMono(ps, n, m);
      WithinMono(body, n, m);
    case _ =>
  }

  lemma WithinIndex(v: Value, i: nat, n: nat)
    requires Within(v, n) && Index(v, i).Ok?
    ensures Within(Index(v, i).value, n)
  {
  }
}
