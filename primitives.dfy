/** The native procedures and the three global frames of the interpreter.  Numbers are
    integers; the operators follow Ruby's on integers, strings, symbols and arrays. */
module Primitives {
  import opened Values
  import opened ListPrimitives

  /** How many arguments the primitive's lambda takes; `list` takes any number. */
  function Arity(op: PrimOp): Option<nat>
  {
    match op
    case ListOp => None
    case NullP | CarOp | CdrOp => Some(1)
    case _ => Some(2)
  }

  /** Ruby's `String#<=>` on two character sequences (`Symbol#<=>` compares the names):
      lexicographic, a proper prefix first. */
  predicate LexLess(a: string, b: string)
  {
    if |a| == 0 then |b| > 0
    else |b| > 0 && (a[0] < b[0] || (a[0] == b[0] && LexLess(a[1..], b[1..])))
  }

  /** `Array#*` and `String#*` by a count: `n` copies one after another. */
  function Repeat<T>(s: seq<T>, n: nat): seq<T>
  {
    if n == 0 then [] else s + Repeat(s, n - 1)
  }

  /** `Array#-`: the elements of `a` that `b` lacks, in their order in `a`. */
  function Difference(a: seq<Value>, b: seq<Value>): seq<Value>
  {
    if |a| == 0 then [] else (if a[0] in b then [] else [a[0]]) + Difference(a[1..], b)
  }

  /** The operand kinds Ruby's operators accept: numbers, strings and arrays for `+`,
      numbers and arrays for `-`, two numbers or a string or array times a count that is
      not negative for `*`, and two numbers, two strings or two symbols for a comparison. */
  predicate Accepts(op: PrimOp, x: Value, y: Value)
  {
    match op
    case Add => (x.Num? && y.Num?) || (x.Str? && y.Str?) || (x.List? && y.List?)
    case Sub => (x.Num? && y.Num?) || (x.List? && y.List?)
    case Mul => (x.Num? && y.Num?) || ((x.Str? || x.List?) && y.Num? && y.n >= 0)
    case _ => (x.Num? && y.Num?) || (x.Str? && y.Str?) || (x.Sym? && y.Sym?)
  }

  /** The comparison `op` on two integers. */
  function CompareNums(op: PrimOp, a: int, b: int): bool
    requires op in {Gt, Ge, Lt, Le}
  {
    match op
    case Gt => a > b
    case Ge => a >= b
    case Lt => a < b
    case Le => a <= b
  }

  /** The comparison `op` of `Comparable` over `String#<=>`. */
  function CompareStrings(op: PrimOp, a: string, b: string): bool
    requires op in {Gt, Ge, Lt, Le}
  {
    match op
    case Gt => LexLess(b, a)
    case Ge => !LexLess(a, b)
    case Lt => LexLess(a, b)
    case Le => !LexLess(b, a)
  }

  /** The binary lambdas `x + y`, `x - y`, `x * y`, `x > y`, ... as Ruby's operators
      compute them on the receiver `x`.  A receiver without the operator raises
      NoMethodError (reported on `x`); one that has it but refuses the argument raises
      TypeError or ArgumentError (reported on `y`). */
  function Arith(op: PrimOp, x: Value, y: Value): (r: Result<Value>)
    requires op in {Add, Sub, Mul, Gt, Ge, Lt, Le}
    ensures r.Ok? <==> Accepts(op, x, y)
    ensures r.Ok? && op in {Gt, Ge, Lt, Le} ==> r.value.Bool?
    ensures r.Ok? && x.Num? ==> r.value.Num? || r.value.Bool?
    ensures r.Err? ==> r.error == WrongKind(x) || r.error == WrongKind(y)
  {
    if op == Add then
      if x.Num? && y.Num? then Ok(Num(x.n + y.n))
      else if x.Str? && y.Str? then Ok(Str(x.chars + y.chars))
      else if x.List? && y.List? then Ok(List(x.items + y.items))
      else Err(WrongKind(if x.Num? || x.Str? || x.List? then y else x))
    else if op == Sub then
      if x.Num? && y.Num? then Ok(Num(x.n - y.n))
      else if x.List? && y.List? then Ok(List(Difference(x.items, y.items)))
      else Err(WrongKind(if x.Num? || x.List? then y else x))
    else if op == Mul then
      if x.Num? && y.Num? then Ok(Num(x.n * y.n))
      else if x.Str? && y.Num? && y.n >= 0 then Ok(Str(Repeat(x.chars, y.n)))
      else if x.List? && y.Num? && y.n >= 0 then Ok(List(Repeat(x.items, y.n)))
      else Err(WrongKind(if x.Num? || x.Str? || x.List? then y else x))
    else
      if x.Num? && y.Num? then Ok(Bool(CompareNums(op, x.n, y.n)))
      else if x.Str? && y.Str? then Ok(Bool(CompareStrings(op, x.chars, y.chars)))
      else if x.Sym? && y.Sym? then Ok(Bool(CompareStrings(op, x.name, y.name)))
      else Err(WrongKind(if x.Num? || x.Str? || x.Sym? then y else x))
  }

  /** `String#<=>` is irreflexive. */
  lemma {:induction false} LexIrreflexive(a: string)
    ensures !LexLess(a, a)
  {
    if |a| > 0 {
      LexIrreflexive(a[1..]);
    }
  }

  /** `String#<=>` is total and asymmetric: exactly one of `a < b`, `a == b`, `b < a`. */
  lemma {:induction false} LexTrichotomy(a: string, b: string)
    ensures LexLess(a, b) || a == b || LexLess(b, a)
    ensures !(LexLess(a, b) && LexLess(b, a))
    ensures a == b ==> !LexLess(a, b)
  {
    LexIrreflexive(a);
    if |a| > 0 && |b| > 0 {
      LexTrichotomy(a[1..], b[1..]);
      if a[0] == b[0] && a[1..] == b[1..] {
        assert a == [a[0]] + a[1..] && b == [b[0]] + b[1..];
      }
    }
  }

  /** The four comparison primitives agree as one total order would on every pair of
      operands they accept: `<` is `>` with the operands swapped, `<=` is `<` or equal and
      `>=` is not `<`. */
  lemma ComparisonsAgree(x: Value, y: Value)
    requires Accepts(Lt, x, y)
    ensures Arith(Lt, x, y) == Arith(Gt, y, x)
    ensures Arith(Le, x, y) == Ok(Bool(Arith(Lt, x, y) == Ok(Bool(true)) || x == y))
    ensures Arith(Ge, x, y) == Ok(Bool(Arith(Lt, x, y) == Ok(Bool(false))))
  {
    if x.Str? {
      LexTrichotomy(x.chars, y.chars);
    } else if x.Sym? {
      LexTrichotomy(x.name, y.name);
    }
  }

  /** `Array#-` keeps exactly the elements of the first array that the second lacks. */
  lemma {:induction false} DifferenceSpec(a: seq<Value>, b: seq<Value>)
    ensures forall v :: v in Difference(a, b) <==> v in a && v !in b
    ensures |Difference(a, b)| <= |a|
  {
    if |a| > 0 {
      DifferenceSpec(a[1..], b);
      assert a == [a[0]] + a[1..];
    }
  }

  /** `n` copies of `s` have `n * |s|` elements. */
  lemma {:induction false} RepeatLength<T>(s: seq<T>, n: nat)
    ensures |Repeat(s, n)| == n * |s|
  {
    if n > 0 {
      RepeatLength(s, n - 1);
      assert n * |s| == (n - 1) * |s| + |s|;
    }
  }

  /** `n` copies of `s` hold exactly the elements of `s`, none at all when `n` is 0. */
  lemma {:induction false} RepeatMembers<T>(s: seq<T>, n: nat)
    ensures forall v :: v in Repeat(s, n) <==> n > 0 && v in s
  {
    if n > 1 {
      RepeatMembers(s, n - 1);
    }
  }

  /** Repeating `a + b` times is repeating `a` times, then `b` times. */
  lemma {:induction false} RepeatAdd<T>(s: seq<T>, a: nat, b: nat)
    ensures Repeat(s, a + b) == Repeat(s, a) + Repeat(s, b)
  {
    if a > 0 {
      RepeatAdd(s, a - 1, b);
      assert Repeat(s, a + b) == s + Repeat(s, a - 1 + b);
    }
  }

  /** `apply_primitive_fun`: calls the primitive with the arguments spread out
      (`fun_val[*args]`); a wrong number of arguments is Ruby's ArgumentError. */
  function ApplyPrimitiveFun(op: PrimOp, args: seq<Value>): (r: Result<Value>)
    ensures Arity(op).Some? && Arity(op).value != |args| ==> r == Err(WrongArity(op, |args|))
    ensures op == ListOp ==> r == Ok(MakeList(args))
    ensures op == ConsOp && |args| == 2 ==> r == Cons(args[0], args[1])
    ensures op == Equal && |args| == 2 ==> r == Ok(Bool(args[0] == args[1]))
  {
    if Arity(op).Some? && Arity(op).value != |args| then Err(WrongArity(op, |args|))
    else
      match op
      case ListOp => Ok(MakeList(args))
      case NullP => Ok(IsNull(args[0]))
      case CarOp => Car(args[0])
      case CdrOp => Cdr(args[0])
      case ConsOp => Cons(args[0], args[1])
      case Equal => Ok(Bool(args[0] == args[1]))
      case _ => Arith(op, args[0], args[1])
  }

  /** `$list_env`. */
  const ListFrame: map<Value, Value> :=
    map[Sym("nil") := List([]), Sym("null?") := Prim(NullP), Sym("cons") := Prim(ConsOp),
        Sym("car") := Prim(CarOp), Sym("cdr") := Prim(CdrOp), Sym("list") := Prim(ListOp)]

  /** `$primitive_fun_env`. */
  const PrimitiveFunFrame: map<Value, Value> :=
    map[Sym("+") := Prim(Add), Sym("-") := Prim(Sub), Sym("*") := Prim(Mul),
        Sym(">") := Prim(Gt), Sym(">=") := Prim(Ge), Sym("<") := Prim(Lt),
        Sym("<=") := Prim(Le), Sym("==") := Prim(Equal)]

  /** `$boolean_env`. */
  const BooleanFrame: map<Value, Value> :=
    map[Sym("true") := Bool(true), Sym("false") := Bool(false)]

  /** No name is bound by two of the global frames, so the order of `$global_env` never
      decides a lookup. */
  lemma GlobalFramesDisjoint()
    ensures ListFrame.Keys !! PrimitiveFunFrame.Keys
    ensures ListFrame.Keys !! BooleanFrame.Keys
    ensures PrimitiveFunFrame.Keys !! BooleanFrame.Keys
  {
  }

  /** No built-in is nil, so every built-in name resolves. */
  lemma GlobalValuesNotNil()
    ensures Nil !in ListFrame.Values + PrimitiveFunFrame.Values + BooleanFrame.Values
  {
  }
}
