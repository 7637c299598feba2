# scheme_in_ruby, modelled in Dafny

A model of the evaluator in `src/scheme_in_ruby.rb`: a small interpreter for a
Scheme-like language whose programs are Ruby arrays and symbols. It covers the list
primitives, the chained environments of hashes, the special forms, `_eval`/`apply`, and
the three global frames. The model proves what each of these does.

How the model is built:

- **Values.** A program and its data are one `Values.Value` tree. The interpreter's two
  tagged arrays get variants of their own: `[:prim, lambda]` becomes `Prim` and
  `[:closure, params, body, env]` becomes `Closure`.
- **The store.** Frames and environments are shared and mutated in place by `define`,
  `set!`, `letrec` and `extend_env_q`. So they live in an explicit store
  (`Environment.Store`):
  - a frame is addressed by a `FrameId`;
  - an environment is a sequence of frame addresses, addressed by an `EnvId`;
  - a closure holds an `EnvId`, so it sees later `unshift`s into its environment, as in
    Ruby.
- **Two layers.** The evaluator is written twice.
  - Module `Semantics` is a store-passing reference definition. Every function takes
    the store as it is when the Ruby function is entered, and gives back the result with
    the store as it is when the Ruby function returns or raises.
  - Class `Machine.Interpreter` owns the store as fields. Its methods loop and assign in
    place as the Ruby code does (`each` with `break`, `h[k] = v`, `unshift`,
    `ext_env[0][p] = v`). Each method is proved to produce exactly the result and store
    of its reference function, and to leave no dangling address.
- **Properties.** Modules `SemanticsLemmas`, `StoreInvariant` and `TestVectors` state
  what the source promises:
  - lookup shadowing;
  - `if` evaluates one branch;
  - `cond` tries its clauses in order;
  - `let` is a lambda application;
  - `letrec` backpatches its frame;
  - how `define` and `set!` change the store;
  - the test table's expected values.
- **Errors.** Ruby `raise` and the host errors Ruby would throw become `Err` results
  (`Values.Error`).
- **Termination.** `_eval` does not always terminate, so every evaluator function takes
  `fuel`. Running out is the error `OutOfFuel`.

Where the code and its written description differ, the model follows the code:

- `car` and `cdr` of the empty list give nil (Ruby indexing), not an error.
- `nil`, as well as `false`, is false for `if`.
- `lookup_var` raises when the first frame owning a name maps it to nil. It does not go
  on to the outer frames.
- A `cond` whose tests all fail ends in a lookup of the empty string `''`. A `(cond)`
  with no clause at all ends in a lookup of nil, because `''[1]` is nil. Neither is a
  dedicated "no clause" value.

There is one exception: the log messages. `_eval` and `apply` build a log message with
`pp` on every call, even though `DEBUG` is off, and `pp` raises on booleans and on most
primitives. So the code as written aborts programs that the interpreter is evidently
meant to run. Module `Logging` states that behaviour and exhibits it (see
"## Findings"). The evaluator in `Semantics` and `Machine` leaves the messages out.

## Model

| member | source | states |
|---|---|---|
| Values.Index | src/scheme_in_ruby.rb:43-45 | Ruby's `x[i]`: fails exactly on values that have no `[]` (booleans, nil and the procedures); on an array it is the element, or nil past the end |
| Values.Truthy | src/scheme_in_ruby.rb:273-280 | no contract of its own; Ruby truthiness, false exactly for `false` and nil; `SemanticsLemmas.EvalIfForm` states how `if` uses it |
| ListPrimitives.Cons | src/scheme_in_ruby.rb:31-37 | fails (with `ConsOntoNonList`) exactly when the tail is not a list; otherwise the list is one longer, its car is the head and its cdr the tail |
| ListPrimitives.IsNull | src/scheme_in_ruby.rb:39-41 | a Ruby boolean, true exactly for the empty list |
| ListPrimitives.Car | src/scheme_in_ruby.rb:43-45 | the first element of a non-empty list, nil for the empty list |
| ListPrimitives.Cdr | src/scheme_in_ruby.rb:47-49 | the rest of a non-empty list, nil for the empty list; defined exactly for arrays, strings and symbols |
| ListPrimitives.MakeList | src/scheme_in_ruby.rb:51-53 | no contract of its own; `ListPrimitives.ListElementsInOrder` and `ConsAllIsList` state what `list` gives |
| ListPrimitives.ListElementsInOrder | src/scheme_in_ruby.rb:51-53 | `list` keeps its arguments in order: the i-th cdr of the result starts with the i-th argument |
| ListPrimitives.ConsAllIsList | src/scheme_in_ruby.rb:31-53 | consing the arguments one by one onto the empty list gives the same list as `list` |
| ListPrimitives.ConsCarCdr | src/scheme_in_ruby.rb:31-49 | `cons` of the car and cdr of a non-empty list rebuilds that list |
| Primitives.Arith | src/scheme_in_ruby.rb:5-14 | a binary operator succeeds exactly when Ruby's operator accepts the operands (`Accepts`): numbers, strings or arrays for `+`; numbers or arrays for `-`; numbers, or a string or array times a count that is not negative, for `*`; two numbers, two strings or two symbols for a comparison. A comparison gives a boolean, and an error names one of the operands |
| Primitives.ComparisonsAgree | src/scheme_in_ruby.rb:9-12 | on operands a comparison accepts, `<` is `>` with the operands swapped, `<=` is `<` or equal, and `>=` is not `<` |
| Primitives.LexIrreflexive | src/scheme_in_ruby.rb:9-12 | no string or symbol is less than itself |
| Primitives.LexTrichotomy | src/scheme_in_ruby.rb:9-12 | string and symbol order is total and asymmetric: exactly one of less, equal, greater |
| Primitives.DifferenceSpec | src/scheme_in_ruby.rb:7 | `Array#-` keeps exactly the elements of the first array that the second lacks, and never grows |
| Primitives.RepeatLength | src/scheme_in_ruby.rb:8 | a string or array times `n` is `n` times as long |
| Primitives.RepeatMembers | src/scheme_in_ruby.rb:8 | a string or array times `n` holds exactly its own elements, and nothing when `n` is 0 |
| Primitives.RepeatAdd | src/scheme_in_ruby.rb:8 | repeating `a + b` times is repeating `a` times and then `b` times |
| Primitives.ApplyPrimitiveFun | src/scheme_in_ruby.rb:182-185 | a wrong argument count is an arity error; `list` returns its arguments, `cons` is `Cons`, `==` compares values |
| Primitives.GlobalFramesDisjoint | src/scheme_in_ruby.rb:5-29 | no name is bound by two of the global frames, so their order never decides a lookup |
| Primitives.GlobalValuesNotNil | src/scheme_in_ruby.rb:5-29 | no built-in is nil, so every built-in name resolves |
| SpecialForms.SpecialFormOf | src/scheme_in_ruby.rb:187-220 | a form is recognised exactly when the expression is a list whose head is that form's symbol |
| SpecialForms.MakeClosure | src/scheme_in_ruby.rb:95-98 | no contract of its own; `SemanticsLemmas.EvalLambda` states what `lambda` gives |
| SpecialForms.DefineParts | src/scheme_in_ruby.rb:152-161 | no contract of its own; `SemanticsLemmas.DefineShorthand` states that the shorthand reads as a `lambda` |
| SpecialForms.SetqParts | src/scheme_in_ruby.rb:257-259 | no contract of its own; `SemanticsLemmas.SetqBound` and `SetqUnbound` state what `set!` does with the parts |
| SpecialForms.LetToParametersArgsBody | src/scheme_in_ruby.rb:325-331 | no contract of its own; `SemanticsLemmas.LetBindingsParts` states that it reads back the names and initialisers |
| SpecialForms.LambdaApplication | src/scheme_in_ruby.rb:300-304 | no contract of its own; `SemanticsLemmas.EvalLambdaApplication` states how the rewrite evaluates |
| SpecialForms.EvalQuote | src/scheme_in_ruby.rb:265-267 | `quote` returns `exp[1]` unevaluated |
| SpecialForms.IfParts | src/scheme_in_ruby.rb:269-271 | splitting an `if` fails exactly when the expression cannot be indexed |
| SpecialForms.CondToIfClauses | src/scheme_in_ruby.rb:287-298 | `cond_to_if` succeeds exactly when every clause can be indexed; it gives one `if` per clause, in order, with `else` replaced by `true`, ending in `''` |
| SpecialForms.BindingParts | src/scheme_in_ruby.rb:325-327 | the names and initialisers of the bindings, one each per binding and in order; fails exactly when a binding cannot be indexed |
| Environment.Bind | src/scheme_in_ruby.rb:111-113 | no contract of its own; `Environment.BindSpec` states the frame it fills |
| Environment.OwnerIndex | src/scheme_in_ruby.rb:128-133 | the position of the first frame holding the name, or none exactly when no frame holds it |
| Environment.LookupVar | src/scheme_in_ruby.rb:125-139 | the value in the first owning frame; `UnboundVariable` exactly when no frame owns the name or the owner maps it to nil |
| Environment.LookupVarRef | src/scheme_in_ruby.rb:141-150 | the address of the first owning frame; none exactly when no frame owns the name |
| Environment.BindSpec | src/scheme_in_ruby.rb:110-115 | a filled frame's keys are the parameters; each is bound to the argument at its last position, or nil past the arguments; surplus arguments are dropped |
| Environment.BindDistinct | src/scheme_in_ruby.rb:110-115 | with distinct parameters, the i-th parameter is bound to the i-th argument (nil if there is none) |
| Environment.LookupShadowing | src/scheme_in_ruby.rb:125-139 | a frame in front decides the lookup of every name it holds and is transparent for the others |
| Environment.LookupIgnoresOuter | src/scheme_in_ruby.rb:125-139 | once an inner frame owns a name, frames appended behind change neither the owner nor the value |
| Environment.LookupVarRefAgrees | src/scheme_in_ruby.rb:125-150 | the frame `lookup_var_ref` returns holds the value `lookup_var` returns |
| Environment.BindOverwrites | src/scheme_in_ruby.rb:306-323 | writing every name a second time leaves only the second values, so no `:dummy` survives the backpatch |
| Environment.Assign | src/scheme_in_ruby.rb:249-250 | `frame[name] = v` changes that entry of that one frame; no other frame or environment changes |
| Environment.ExtendEnv | src/scheme_in_ruby.rb:110-115 | a new environment with one new frame binding the parameters in front of the old chain; existing frames and environments are unchanged |
| Environment.ExtendEnvQ | src/scheme_in_ruby.rb:117-122 | one new frame is unshifted into the given environment object; every other environment is unchanged |
| Environment.ExtendEnvChains | src/scheme_in_ruby.rb:110-115 | the new environment's chain is the new frame followed by the old chain, and the old environment's chain is unchanged |
| Environment.ExtendEnvQChain | src/scheme_in_ruby.rb:117-122 | the chain of the environment grows by exactly one frame, in front |
| Environment.SetExtendEnvQ | src/scheme_in_ruby.rb:319-323 | the frame innermost in `ext_env` at the time of the write is rebound pair by pair; no other frame and no environment changes |
| Environment.DummyArgs | src/scheme_in_ruby.rb:308-311 | one `:dummy` per name |
| Machine.FillFrame | src/scheme_in_ruby.rb:111-113 | the hash filled pair by pair is the frame `Bind` describes |
| Machine.Interpreter.constructor | src/scheme_in_ruby.rb:29 | the store holds `$global_env` as environment 0 |
| Machine.Interpreter.FirstOwner | src/scheme_in_ruby.rb:128-133 | the loop that breaks at the first frame holding the name stops at the first such frame, and runs to the end exactly when no frame holds it |
| Machine.Interpreter.LookupVar | src/scheme_in_ruby.rb:125-139 | the loop that stops at the first owner gives `Environment.LookupVar` |
| Machine.Interpreter.LookupVarRef | src/scheme_in_ruby.rb:141-150 | the loop gives `Environment.LookupVarRef` |
| Machine.Interpreter.ExtendEnv | src/scheme_in_ruby.rb:110-115 | the new environment and store are `Environment.ExtendEnv`'s; the store stays free of dangling addresses |
| Machine.Interpreter.ExtendEnvQ | src/scheme_in_ruby.rb:117-122 | the new store is `Environment.ExtendEnvQ`'s and free of dangling addresses |
| Machine.Interpreter.Assign | src/scheme_in_ruby.rb:249-250 | the in-place write gives `Environment.Assign` |
| Machine.Interpreter.SetExtendEnvQ | src/scheme_in_ruby.rb:319-323 | the write loop into `ext_env[0]` gives `Environment.SetExtendEnvQ` |
| Machine.Interpreter.Eval | src/scheme_in_ruby.rb:333-350 | result and store are those of `Semantics.Eval`; the store only grows and stays free of dangling addresses |
| Machine.Interpreter.EvalApplication | src/scheme_in_ruby.rb:344-348 | head, then arguments, then `apply`, as `Semantics.Eval` does |
| Machine.Interpreter.EvalList | src/scheme_in_ruby.rb:352-354 | the loop over the expressions gives `Semantics.EvalList`; a failing element stops it |
| Machine.Interpreter.Apply | src/scheme_in_ruby.rb:66-73 | gives `Semantics.Apply` |
| Machine.Interpreter.LambdaApply | src/scheme_in_ruby.rb:104-108 | gives `Semantics.LambdaApply` |
| Machine.Interpreter.EvalSpecialForm | src/scheme_in_ruby.rb:226-244 | gives `Semantics.EvalSpecialForm` |
| Machine.Interpreter.EvalIf | src/scheme_in_ruby.rb:273-280 | gives `Semantics.EvalIf` |
| Machine.Interpreter.EvalCond | src/scheme_in_ruby.rb:282-285 | gives `Semantics.EvalCond` |
| Machine.Interpreter.EvalDefine | src/scheme_in_ruby.rb:163-176 | gives `Semantics.EvalDefine` |
| Machine.Interpreter.EvalSetq | src/scheme_in_ruby.rb:246-255 | gives `Semantics.EvalSetq` |
| Machine.Interpreter.EvalLet | src/scheme_in_ruby.rb:300-304 | gives `Semantics.EvalLet` |
| Machine.Interpreter.EvalLetrec | src/scheme_in_ruby.rb:306-317 | gives `Semantics.EvalLetrec` |
| Semantics.GlobalStore | src/scheme_in_ruby.rb:29 | a well-formed store whose only environment is `[$list_env, $primitive_fun_env, $boolean_env]` |
| Semantics.Eval | src/scheme_in_ruby.rb:333-350 | reference definition of `_eval`, with no contract of its own; `Machine.Interpreter.Eval` is proved equal to it, and the `SemanticsLemmas` and `StoreInvariant` rows state its behaviour |
| Semantics.EvalEach | src/scheme_in_ruby.rb:352-354 | no contract of its own; `SemanticsLemmas.EvalEachAppend`, `EvalEachSnoc`, `EvalEachStops` and `EvalEachStep` state its order and its stop at the first error |
| Semantics.EvalList | src/scheme_in_ruby.rb:352-354 | no contract of its own; `Machine.Interpreter.EvalList` is proved equal to it |
| Semantics.Apply | src/scheme_in_ruby.rb:66-73 | no contract of its own; `SemanticsLemmas.ApplySpec` states it |
| Semantics.LambdaApply | src/scheme_in_ruby.rb:104-108 | no contract of its own; `SemanticsLemmas.ApplySpec` states it |
| Semantics.EvalSpecialForm | src/scheme_in_ruby.rb:226-244 | no contract of its own; each form has its own rows below |
| Semantics.EvalIf | src/scheme_in_ruby.rb:273-280 | no contract of its own; `SemanticsLemmas.EvalIfForm` and `IfIgnoresOtherBranch` state it |
| Semantics.EvalCond | src/scheme_in_ruby.rb:282-285 | no contract of its own; `SemanticsLemmas.EvalCondPicksFirstTrue`, `EvalCondEmpty` and `EvalCondMalformed` state it |
| Semantics.EvalDefine | src/scheme_in_ruby.rb:163-176 | no contract of its own; `SemanticsLemmas.DefineExisting`, `DefineNew` and `DefineShorthand` state it |
| Semantics.EvalSetq | src/scheme_in_ruby.rb:246-255 | no contract of its own; `SemanticsLemmas.SetqBound` and `SetqUnbound` state it |
| Semantics.EvalLet | src/scheme_in_ruby.rb:300-304 | no contract of its own; `SemanticsLemmas.EvalLetSpec` and `EvalLetParts` state it |
| Semantics.EvalLetrec | src/scheme_in_ruby.rb:306-317 | no contract of its own; `SemanticsLemmas.EvalLetrecSpec` and `LetrecBackpatch` state it |
| SemanticsLemmas.EvalAtom | src/scheme_in_ruby.rb:335-340 | a number evaluates to itself and any other atom to its lookup; the store is unchanged |
| SemanticsLemmas.EvalLambda | src/scheme_in_ruby.rb:222-224 | `lambda` gives a closure of its parameters, its body and the current environment, without evaluating the body |
| SemanticsLemmas.EvalQuoted | src/scheme_in_ruby.rb:265-267 | `(quote e)` gives `e` and leaves the store unchanged |
| SemanticsLemmas.EvalApplicationOrder | src/scheme_in_ruby.rb:344-348 | an application evaluates its head first, then the arguments left to right in the store the head left, then applies; the first error stops it |
| SemanticsLemmas.EvalEachNumbers | src/scheme_in_ruby.rb:336-337 | a list of numbers evaluates to itself and leaves the store unchanged |
| SemanticsLemmas.ApplySpec | src/scheme_in_ruby.rb:66-73 | a primitive gets the arguments spread out; a closure evaluates its body in `extend_env(params, args, captured env)`; anything else cannot be applied |
| SemanticsLemmas.EvalEachAppend | src/scheme_in_ruby.rb:352-354 | `eval_list` works left to right: a suffix is evaluated in the store the prefix left, and only if the prefix succeeded |
| SemanticsLemmas.EvalEachSnoc | src/scheme_in_ruby.rb:352-354 | one expression more at the end is evaluated last, in the store the others left |
| SemanticsLemmas.EvalEachStops | src/scheme_in_ruby.rb:352-354 | after an error nothing more is evaluated |
| SemanticsLemmas.EvalEachStep | src/scheme_in_ruby.rb:352-354 | one more expression past a prefix: an error there ends the whole list with that error, and a value extends the prefix's values |
| SemanticsLemmas.EvalIfForm | src/scheme_in_ruby.rb:273-280 | `if` evaluates the condition, then only the branch its Ruby truthiness selects, in the store the condition left |
| SemanticsLemmas.IfIgnoresOtherBranch | src/scheme_in_ruby.rb:273-280 | replacing the branch not taken changes nothing |
| SemanticsLemmas.EvalIfChain | src/scheme_in_ruby.rb:282-298 | the nested `if`s of `cond_to_if` evaluate as the clauses tried in order (reference `CondClauses`) |
| SemanticsLemmas.EvalCondPicksFirstTrue | src/scheme_in_ruby.rb:282-298 | `cond` gives the consequent of the first clause whose test is truthy, with `else` counting as `true` |
| SemanticsLemmas.EvalCondEmpty | src/scheme_in_ruby.rb:282-298 | `(cond)` with no clause evaluates nil as its condition, a lookup of nil, and leaves the store unchanged |
| SemanticsLemmas.EvalIfChainStops | src/scheme_in_ruby.rb:282-298 | where the first test fails with an error, is truthy, or is the last, the nested `if`s stop exactly where the clauses stop |
| SemanticsLemmas.EvalCondMalformed | src/scheme_in_ruby.rb:287-298 | a clause list `cond_to_if` cannot read fails before any test is evaluated, leaving the store as it was |
| SemanticsLemmas.EvalLambdaApplication | src/scheme_in_ruby.rb:300-304 | `((lambda (p...) body) e...)` evaluates the arguments left to right, then the body in a new environment binding the parameters in front of the current one |
| SemanticsLemmas.LetBindingsParts | src/scheme_in_ruby.rb:325-327 | the bindings of a `let` read back as its names and initialisers |
| SemanticsLemmas.EvalLetSpec | src/scheme_in_ruby.rb:300-304 | `let` evaluates its initialisers in the outer environment, then the body with the names bound in front of it |
| SemanticsLemmas.EvalLetParts | src/scheme_in_ruby.rb:300-304 | any `let` form evaluates its initialisers left to right in the outer environment, then its body with the names bound in front; the first failing initialiser ends it |
| SemanticsLemmas.LetrecBackpatch | src/scheme_in_ruby.rb:306-323 | after the backpatch the placeholder frame binds exactly the names to their values |
| SemanticsLemmas.EvalLetrecSpec | src/scheme_in_ruby.rb:306-317 | `letrec` makes a frame of `:dummy`s in front of the chain, evaluates the initialisers there, backpatches that frame, then evaluates the `let` rewrite in the same environment (initialisers a second time) |
| SemanticsLemmas.DefineExisting | src/scheme_in_ruby.rb:163-176 | `define` of an owned name overwrites the owning frame (found before the value was evaluated) and adds no environment or frame; the result is nil; a failing value expression is passed on |
| SemanticsLemmas.DefineNew | src/scheme_in_ruby.rb:163-176 | `define` of an unowned name unshifts exactly one frame `{name => value}` into the current environment and changes no other environment; the result is nil |
| SemanticsLemmas.DefineNewFront | src/scheme_in_ruby.rb:163-176 | after `define` of a new name, the environment's chain is the frame `{name => value}` in front of the chain it had before |
| SemanticsLemmas.ClosureSeesLaterDefine | src/scheme_in_ruby.rb:117-122 | a closure made in an environment before a `define` of a new name there sees that name when applied afterwards, because the frame is unshifted into the environment object the closure holds (this is what lets the recursive `length` of the test table call itself) |
| SemanticsLemmas.DefineShorthand | src/scheme_in_ruby.rb:152-161 | `(define (f p...) body)` behaves exactly as `(define f (lambda (p...) body))` |
| SemanticsLemmas.SetqUnbound | src/scheme_in_ruby.rb:246-255 | `set!` of an unowned name raises before its value is evaluated and changes nothing |
| SemanticsLemmas.SetqBound | src/scheme_in_ruby.rb:246-255 | `set!` of an owned name overwrites only that frame's entry, adds nothing and gives nil; a failing value expression is passed on |
| Logging.ApplyAsWrittenRaisesOnBoolean | src/scheme_in_ruby.rb:66-67 | as written, `apply` aborts on every argument list that holds a boolean (unless the first argument is the symbol `closure` or `lambda`), whatever the function |
| Logging.ApplyOfBooleanDiffers | src/scheme_in_ruby.rb:66-67 | `((lambda (x) x) (> 3 2))` reaches `apply` with `[true]`: the evaluator gives `true`, `apply` as written raises |
| Logging.EvalAfterBooleanDefineDiffers | src/scheme_in_ruby.rb:333-334 | after `(define t true)` in `$global_env`, `_eval` as written aborts even on the number 1, which the evaluator returns |
| Logging.BooleanFramePrintRaises | src/scheme_in_ruby.rb:356-386 | `pp` of `$global_env` raises once a frame `{t => true}` is unshifted into it |
| Logging.FramePrintRaises | src/scheme_in_ruby.rb:367-378 | `pp` raises on any frame that is none of the global hashes and binds a name to a boolean |
| StoreInvariant.LookupWithin | src/scheme_in_ruby.rb:125-139 | a looked-up value refers only to existing environments |
| StoreInvariant.LookupVarRefAllocated | src/scheme_in_ruby.rb:141-150 | `lookup_var_ref` returns an allocated frame |
| StoreInvariant.ExtendEnvKeeps | src/scheme_in_ruby.rb:110-115 | `extend_env` keeps the store free of dangling addresses and only grows it |
| StoreInvariant.ExtendEnvQKeeps | src/scheme_in_ruby.rb:117-122 | the same for `extend_env_q` |
| StoreInvariant.AssignKeeps | src/scheme_in_ruby.rb:249-250 | the same for an assignment into a frame |
| StoreInvariant.SetExtendEnvQKeeps | src/scheme_in_ruby.rb:319-323 | the same for the `letrec` backpatch |
| StoreInvariant.EvalKeeps | src/scheme_in_ruby.rb:333-350 | evaluation keeps the store free of dangling addresses and only grows it, and its value refers to existing environments |
| StoreInvariant.EvalApplicationKeeps | src/scheme_in_ruby.rb:344-348 | the same for an application |
| StoreInvariant.EvalEachKeeps | src/scheme_in_ruby.rb:352-354 | the same for a sequence of expressions |
| StoreInvariant.EvalListKeeps | src/scheme_in_ruby.rb:352-354 | the same for `eval_list` |
| StoreInvariant.ApplyKeeps | src/scheme_in_ruby.rb:66-73 | the same for `apply` |
| StoreInvariant.LambdaApplyKeeps | src/scheme_in_ruby.rb:104-108 | the same for `lambda_apply` |
| StoreInvariant.EvalSpecialFormKeeps | src/scheme_in_ruby.rb:226-244 | the same for every special form |
| StoreInvariant.EvalIfKeeps | src/scheme_in_ruby.rb:273-280 | the same for `if` |
| StoreInvariant.EvalCondKeeps | src/scheme_in_ruby.rb:282-285 | the same for `cond` |
| StoreInvariant.EvalDefineKeeps | src/scheme_in_ruby.rb:163-176 | the same for `define` |
| StoreInvariant.EvalSetqKeeps | src/scheme_in_ruby.rb:246-255 | the same for `set!` |
| StoreInvariant.EvalLetKeeps | src/scheme_in_ruby.rb:300-304 | the same for `let` |
| StoreInvariant.EvalLetrecKeeps | src/scheme_in_ruby.rb:306-317 | the same for `letrec` |
| TestVectors.LetTest | src/scheme_in_ruby.rb:413-414 | `(let ((x 2) (y 3)) (+ x y))` gives 5 |
| TestVectors.IfTest | src/scheme_in_ruby.rb:420-421 | `(if (> 3 2) 1 0)` gives 1 |
| TestVectors.LetrecTest | src/scheme_in_ruby.rb:423-427 | the `letrec` factorial applied to 3 gives 6 |
| TestVectors.FactApplied | src/scheme_in_ruby.rb:423-427 | the `fact` closure, in an environment binding `fact` to it, gives k! for every k, with three units of fuel per level |
| TestVectors.CondTest | src/scheme_in_ruby.rb:429-433 | the `cond` of the table falls through to `else` and gives 1 |
| TestVectors.DefineIdTest | src/scheme_in_ruby.rb:441-444 | `(define (id x) x)` gives nil, and afterwards `(id 3)` gives 3 |
| TestVectors.SetqTest | src/scheme_in_ruby.rb:454-456 | `set!` in an inner `let` is seen by the outer `x`: the result is 2 |
| TestVectors.ListTest | src/scheme_in_ruby.rb:458-459 | `(list 1)` gives `[1]` |

## Left out

- `parse` (src/scheme_in_ruby.rb:55-64) is not part of this model. It rewrites text with regular expressions and then calls Ruby's `Kernel#eval`. The `parse` rows of the test table are therefore not stated; their expression trees equal rows that are.
- `repl`, `assert` and `test` are not part of this model. They are standard input and output and the test driver. `log` only prints, because `DEBUG` is off. Of `pp`, the model keeps only whether it raises (module `Logging`), not the text it builds.
- Machine.Interpreter.Eval: the log message of `_eval` is left out. As written, `pp(exp)` and `pp(env)` run first and raise on a boolean or on most primitives in the expression or in a frame of the environment, other than the three global frames. The model goes on evaluating there. `Logging.EvalAsWritten` states the behaviour as written; see "## Findings".
- Machine.Interpreter.Apply: the log message of `apply` is left out. As written, `pp(args)` raises when an argument is or holds a boolean or most primitives. The model applies the function anyway. `Logging.ApplyAsWritten` states the behaviour as written; see "## Findings".
- SemanticsLemmas.ApplySpec: states `apply` without its log message, for the same reason.
- Machine.Interpreter.Apply: an untagged array is not applied. Ruby's `lambda_apply` reads items 1 to 3 of any array not headed `:prim` as parameters, body and environment, so `((quote (c (x) x ())) 5)` gives 5 there. The model gives `NotApplicable`, because its environments are store addresses, not arrays of hashes. On every other value that is not a procedure both fail, though with different errors.
- SemanticsLemmas.ApplySpec: the same difference for untagged arrays.
- Primitives.Arith: some operands Ruby accepts are refused with `WrongKind`. An array times a string (`Array#join`) is one. Arithmetic on a primitive or a closure as the two- or four-element array it is in Ruby is another. Floats are not modelled.
- Numbers are integers. Ruby's floats and mixed numeric comparisons are not modelled, and comparisons give booleans.
- `[:prim, lambda]` and `[:closure, ...]` are separate variants, not two- and four-element arrays. Indexing them, passing them to `car` or `cdr`, or using them as the tail of `cons`, gives a `WrongKind` or `ConsOntoNonList` error, where Ruby would use the array. `null?` gives `false` on them, as in Ruby. `==` on closures compares environment addresses, not the environments' contents.
- ListPrimitives.Cons: a procedure as the tail is refused with `ConsOntoNonList`. Ruby's `cons` only tests `Array === b`, so `(cons 1 car)` gives `[1, :prim, λ]` there.
- The host errors Ruby raises become `Err` results. These are `NoMethodError` and `TypeError` on a value of the wrong kind (`WrongKind`), `ArgumentError` from a primitive given the wrong number of arguments (`WrongArity`), and applying a non-procedure (`NotApplicable`). Their messages and exception classes are not modelled.
- Machine.Interpreter.Eval: recursion depth is bounded by `fuel`, where the source recurses until the Ruby stack overflows. Running out of fuel is the extra error `OutOfFuel`, so each statement holds for every run that completes within the given fuel.
- Machine.Interpreter.Eval: requires that the expression refers only to existing environments (`Within`). Expressions built by a parser never hold closures, so this does not restrict the programs the source can run.
- `eval_letrec` builds its placeholder frame from the keys of a hash, so a repeated name appears once. The model binds the names directly, which gives the same frame.
- The test table runs its rows one after another in one shared `$global_env`. Each test lemma instead starts from any store whose environment 0 is `$global_env`.
- These rows of the test table are not stated: the two further `let` rows (src/scheme_in_ruby.rb:415-418), the recursive `length` definition (435-440; `SemanticsLemmas.ClosureSeesLaterDefine` states the mechanism it relies on), `(define x (lambda (x) x))` and `(define x 5)` (445-452), and the fixed-point rows from line 469 on. The lemmas about `define`, `let` and application cover what those rows exercise.

## Findings

| source | as written | input that shows it | evidently intended | confidence | as-written member | corrected member |
|---|---|---|---|---|---|---|
| src/scheme_in_ruby.rb:66-67 | `apply` builds `"... args:#{pp(args)}"` before `log` tests `DEBUG`, and `pp(true)` raises NoMethodError in `lambda?` (line 92) | `((lambda (x) x) (> 3 2))` | with `DEBUG` false the log has no effect, and the call gives `true` | high; not executed | Logging.ApplyAsWritten, Logging.ApplyOfBooleanDiffers | Semantics.Apply |
| src/scheme_in_ruby.rb:333-334 | `_eval` builds `pp(exp)` and `pp(env)` before `log` tests `DEBUG`, and `pp` of a frame binding a name to `true` raises | `(define t true)`, then `1` | with `DEBUG` false the log has no effect, and `1` gives 1 | high; not executed | Logging.EvalAsWritten, Logging.EvalAfterBooleanDefineDiffers | Semantics.Eval |
