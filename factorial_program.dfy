/** The factorial program of the source's `letrec` test, and what it means for an
    environment to be ready to run it. */
module FactorialProgram {
  import opened Values
  import opened Primitives
  import opened Environment
  import opened Semantics

  /** `n!`, what the factorial test computes. */
  function Factorial(n: nat): nat
  {
    if n == 0 then 1 else n * Factorial(n - 1)
  }

  /** `(if (< n 1) 1 (* n (fact (- n 1))))`. */
  const FactBody: Value :=
    List([Sym("if"), List([Sym("<"), Sym("n"), Num(1)]), Num(1),
          List([Sym("*"), Sym("n"), List([Sym("fact"), List([Sym("-"), Sym("n"), Num(1)])])])])

  /** `(fact (- n 1))`. */
  const FactCall: Value := List([Sym("fact"), List([Sym("-"), Sym("n"), Num(1)])])

  /** The closure `(lambda (n) ...)` makes in environment `ext`. */
  function FactClosure(ext: EnvId): Value
  {
    Closure(List([Sym("n")]), FactBody, ext)
  }

  /** In store `t`, environment `ext` binds `fact` to its factorial closure and sees the
      primitives `<`, `*` and `-`. */
  ghost predicate FactReady(t: Store, ext: EnvId)
  {
    ChainAllocated(t, ext) &&
    LookupVar(Sym("fact"), Chain(t, ext)) == Ok(FactClosure(ext)) &&
    LookupVar(Sym("<"), Chain(t, ext)) == Ok(Prim(Lt)) &&
    LookupVar(Sym("*"), Chain(t, ext)) == Ok(Prim(Mul)) &&
    LookupVar(Sym("-"), Chain(t, ext)) == Ok(Prim(Sub))
  }

  /** What the factorial closure of `ext` gives on `k` in store `t` with `fuel`. */
  ghost function FactResult(k: int, ext: EnvId, t: Store, fuel: nat): Result<Value>
  {
    Apply(FactClosure(ext), [Num(k)], t, fuel).result
  }
}
