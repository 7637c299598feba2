/** The list primitives `cons`, `null?`, `car`, `cdr` and `list`, on Ruby arrays used as
    proper lists.  `car` and `cdr` are Ruby indexing (`list[0]`, `list[1...list.length]`),
    so they also answer for strings, symbols and (for `car`) integers, and give nil
    instead of failing on the empty list. */
module ListPrimitives {
  import opened Values

  /** `cons`: a new list one longer than `b`, with `a` in front; a tail that is not a
      list is refused. */
  function Cons(a: Value, b: Value): (r: Result<Value>)
    ensures r.Ok? <==> b.List?
    ensures r.Err? ==> r.error == ConsOntoNonList(b)
    ensures r.Ok? ==> r.value.List? && |r.value.items| == |b.items| + 1
    ensures r.Ok? ==> Car(r.value) == Ok(a) && Cdr(r.value) == Ok(b)
  {
    if !b.List? then Err(ConsOntoNonList(b))
    else
      var items := [a] + b.items;
      assert items[1..] == b.items;
      Ok(List(items))
  }

  /** `null?`: the Ruby boolean `list == []`. */
  function IsNull(v: Value): (r: Value)
    ensures r == Bool(true) || r == Bool(false)
    ensures r == Bool(true) <==> v.List? && |v.items| == 0
  {
    Bool(v == List([]))
  }

  /** `car`: `list[0]`, which is nil for the empty list. */
  function Car(v: Value): (r: Result<Value>)
    ensures v.List? && |v.items| > 0 ==> r == Ok(v.items[0])
    ensures v.List? && |v.items| == 0 ==> r == Ok(Nil)
  {
    Index(v, 0)
  }

  /** `cdr`: `list[1...list.length]`; Ruby answers nil when the start index lies past
      the end, so the cdr of the empty list is nil, not the empty list. */
  function Cdr(v: Value): (r: Result<Value>)
    ensures r.Ok? <==> v.List? || v.Str? || v.Sym?
    ensures v.List? && |v.items| > 0 ==> r == Ok(List(v.items[1..]))
    ensures v.List? && |v.items| == 0 ==> r == Ok(Nil)
  {
    match v
    case List(items) => Ok(if |items| == 0 then Nil else List(items[1..]))
    case Str(cs) => Ok(if |cs| == 0 then Nil else Str(cs[1..]))
    case Sym(name) => Ok(if |name| == 0 then Nil else Str(name[1..]))
    case _ => Err(WrongKind(v))
  }

  /** `list`: its arguments, in order, as a list. */
  function MakeList(args: seq<Value>): (r: Value)
  {
    List(args)
  }

  /** `k` applications of `cdr`. */
  function NthCdr(v: Value, k: nat): Result<Value>
    decreases k
  {
    if k == 0 then Ok(v)
    else match Cdr(v)
      case Ok(rest) => NthCdr(rest, k - 1)
      case Err(e) => Err(e)
  }

  /** `(cons a1 (cons a2 ... (cons an nil)))`. */
  function ConsAll(args: seq<Value>): Result<Value>
  {
    if |args| == 0 then Ok(List([]))
    else match ConsAll(args[1..])
      case Ok(rest) => Cons(args[0], rest)
      case Err(e) => Err(e)
  }

  /** `list` keeps its arguments in order: the i-th `cdr` of the list starts with the
      i-th argument. */
  lemma {:induction false} ListElementsInOrder(args: seq<Value>, i: nat)
    requires i < |args|
    ensures NthCdr(MakeList(args), i) == Ok(List(args[i..]))
    ensures NthCdr(MakeList(args), i).value.items[0] == args[i]
  {
    if i > 0 {
      ListElementsInOrder(args[1..], i - 1);
      assert args[1..][i - 1..] == args[i..];
    }
  }

  /** Building a list with `cons` onto `nil` gives the same list as `list`. */
  lemma {:induction false} ConsAllIsList(args: seq<Value>)
    ensures ConsAll(args) == Ok(MakeList(args))
  {
    if |args| > 0 {
      ConsAllIsList(args[1..]);
      assert [args[0]] + args[1..] == args;
    }
  }

  /** `cons` rebuilds a non-empty list from its `car` and `cdr`. */
  lemma ConsCarCdr(l: Value)
    requires l.List? && |l.items| > 0
    ensures Cons(Car(l).value, Cdr(l).value) == Ok(l)
  {
    assert [l.items[0]] + l.items[1..] == l.items;
  }
}
