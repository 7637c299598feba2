/** Frames and environments as shared, mutable objects in an explicit store.

    A frame is a Ruby hash from names to values; an environment is a Ruby array of frames,
    innermost first.  Both are mutated in place by the interpreter (`define`, `set!`,
    `letrec` write into frames; `extend_env_q` unshifts into an environment) and both are
    shared (a closure holds its environment, environments share frames), so the store gives
    each an address: `frames[id]` is the frame with address `id`, `chains[e]` lists the
    frame addresses of environment `e`.  Addresses are never reused.

    The accessors are total: an address outside the store reads as an empty frame or an
    empty environment.  `WellFormed` says that no address is dangling, and the class in
    module Machine keeps it. */
module Environment {
  import opened Values

  datatype Store = Store(frames: seq<map<Value, Value>>, chains: seq<seq<FrameId>>)

  function FrameAt(s: Store, id: FrameId): map<Value, Value>
  {
    if id < |s.frames| then s.frames[id] else map[]
  }

  function ChainIds(s: Store, env: EnvId): seq<FrameId>
  {
    if env < |s.chains| then s.chains[env] else []
  }

  /** The frames of environment `env`, innermost first. */
  function Chain(s: Store, env: EnvId): (c: seq<map<Value, Value>>)
    ensures |c| == |ChainIds(s, env)|
    ensures forall i | 0 <= i < |c| :: c[i] == FrameAt(s, ChainIds(s, env)[i])
  {
    var ids := ChainIds(s, env);
    seq(|ids|, i requires 0 <= i < |ids| => FrameAt(s, ids[i]))
  }

  /** Position of the innermost frame of `chain` that has the key `name`. */
  function OwnerIndex(name: Value, chain: seq<map<Value, Value>>): (r: Option<nat>)
    ensures r.None? <==> forall i | 0 <= i < |chain| :: name !in chain[i]
    ensures r.Some? ==> r.value < |chain| && name in chain[r.value]
    ensures r.Some? ==> forall j | 0 <= j < r.value :: name !in chain[j]
  {
    if |chain| == 0 then None
    else if name in chain[0] then Some(0)
    else match OwnerIndex(name, chain[1..])
      case None => None
      case Some(i) => Some(i + 1)
  }

  /** `lookup_var`: the value the innermost owning frame holds for `name`.  No owning
      frame is an error, and so is an owning frame that holds nil (the source tests the
      found value against nil); outer frames are never consulted after the first owner. */
  function LookupVar(name: Value, chain: seq<map<Value, Value>>): (r: Result<Value>)
    ensures r.Err? ==> r.error == UnboundVariable(name)
    ensures r.Ok? <==> OwnerIndex(name, chain).Some? && chain[OwnerIndex(name, chain).value][name] != Nil
    ensures r.Ok? ==> r.value == chain[OwnerIndex(name, chain).value][name]
  {
    match OwnerIndex(name, chain)
    case None => Err(UnboundVariable(name))
    case Some(i) => if chain[i][name] == Nil then Err(UnboundVariable(name)) else Ok(chain[i][name])
  }

  /** `lookup_var_ref`: the address of the innermost frame of `env` that has `name`. */
  function LookupVarRef(name: Value, s: Store, env: EnvId): (r: Option<FrameId>)
    ensures r.None? <==> OwnerIndex(name, Chain(s, env)).None?
    ensures r.Some? ==> r.value == ChainIds(s, env)[OwnerIndex(name, Chain(s, env)).value]
  {
    match OwnerIndex(name, Chain(s, env))
    case None => None
    case Some(i) => Some(ChainIds(s, env)[i])
  }

  /** `h[k] = v` for every pair of `params.zip(args)`, in order: a parameter beyond the
      arguments gets nil, surplus arguments are dropped, a repeated parameter keeps the
      value of its last occurrence. */
  function Bind(m: map<Value, Value>, params: seq<Value>, args: seq<Value>): (r: map<Value, Value>)
    decreases |params|
  {
    if |params| == 0 then m
    else Bind(m, params[..|params| - 1], args)[params[|params| - 1] := Nth(args, |params| - 1)]
  }

  /** Index of the last occurrence of `k` in `params`. */
  function LastIndexOf(k: Value, params: seq<Value>): (i: nat)
    requires k in params
    ensures i < |params| && params[i] == k
    ensures forall j | i < j < |params| :: params[j] != k
  {
    if params[|params| - 1] == k then |params| - 1 else LastIndexOf(k, params[..|params| - 1])
  }

  /** The keys of a bound frame are the old keys and the parameters; a parameter is
      bound to the argument at its last position (or nil), other keys keep their value. */
  lemma {:induction false} BindSpec(m: map<Value, Value>, params: seq<Value>, args: seq<Value>)
    ensures Bind(m, params, args).Keys == m.Keys + set p | p in params
    ensures forall k | k in params :: Bind(m, params, args)[k] == Nth(args, LastIndexOf(k, params))
    ensures forall k | k in m && k !in params :: Bind(m, params, args)[k] == m[k]
  {
    if |params| > 0 {
      var init := params[..|params| - 1];
      var last := params[|params| - 1];
      BindSpec(m, init, args);
      assert params == init + [last];
      forall k | k in params
        ensures Bind(m, params, args)[k] == Nth(args, LastIndexOf(k, params))
      {
        if k != last {
          assert k in init;
          assert LastIndexOf(k, params) == LastIndexOf(k, init);
        }
      }
    }
  }

  /** With distinct parameters, frame 0 of `extend_env` maps `params[i]` to `args[i]`,
      and to nil when there is no i-th argument. */
  lemma BindDistinct(params: seq<Value>, args: seq<Value>, i: nat)
    requires i < |params|
    requires forall a, b | 0 <= a < b < |params| :: params[a] != params[b]
    ensures params[i] in Bind(map[], params, args)
    ensures Bind(map[], params, args)[params[i]] == Nth(args, i)
  {
    BindSpec(map[], params, args);
    var j := LastIndexOf(params[i], params);
    assert j == i;
  }

  /** The innermost frame decides: a frame in front shadows every frame behind it. */
  lemma LookupShadowing(name: Value, m: map<Value, Value>, chain: seq<map<Value, Value>>)
    ensures LookupVar(name, [m] + chain) ==
      if name !in m then LookupVar(name, chain)
      else if m[name] == Nil then Err(UnboundVariable(name))
      else Ok(m[name])
  {
    if name !in m {
      assert ([m] + chain)[1..] == chain;
    }
  }

  /** Once some frame of `inner` owns `name`, the frames behind `inner` are ignored. */
  lemma {:induction false} LookupIgnoresOuter(name: Value, inner: seq<map<Value, Value>>, outer: seq<map<Value, Value>>)
    requires OwnerIndex(name, inner).Some?
    ensures OwnerIndex(name, inner + outer) == OwnerIndex(name, inner)
    ensures LookupVar(name, inner + outer) == LookupVar(name, inner)
  {
    if name !in inner[0] {
      assert (inner + outer)[1..] == inner[1..] + outer;
      LookupIgnoresOuter(name, inner[1..], outer);
    }
  }

  /** `lookup_var_ref` finds the frame whose entry `lookup_var` returns. */
  lemma LookupVarRefAgrees(name: Value, s: Store, env: EnvId)
    requires LookupVar(name, Chain(s, env)).Ok?
    ensures LookupVarRef(name, s, env).Some?
    ensures name in FrameAt(s, LookupVarRef(name, s, env).value)
    ensures FrameAt(s, LookupVarRef(name, s, env).value)[name] == LookupVar(name, Chain(s, env)).value
  {
  }

  /** Writing all of `params` twice leaves only the second values: the `:dummy`
      placeholders of `letrec` are all overwritten by the backpatch. */
  lemma {:induction false} BindOverwrites(m: map<Value, Value>, params: seq<Value>, first: seq<Value>, second: seq<Value>)
    ensures Bind(Bind(m, params, first), params, second) == Bind(m, params, second)
  {
    var a := Bind(Bind(m, params, first), params, second);
    var b := Bind(m, params, second);
    BindSpec(m, params, first);
    BindSpec(Bind(m, params, first), params, second);
    BindSpec(m, params, second);
    assert a.Keys == b.Keys;
    forall k | k in a ensures a[k] == b[k] {
      if k !in params {
        assert k in m;
      }
    }
  }

  function NewFrame(s: Store, m: map<Value, Value>): (r: (FrameId, Store))
    ensures r.0 == |s.frames| && r.1 == Store(s.frames + [m], s.chains)
  {
    (|s.frames|, Store(s.frames + [m], s.chains))
  }

  function NewEnv(s: Store, ids: seq<FrameId>): (r: (EnvId, Store))
    ensures r.0 == |s.chains| && r.1 == Store(s.frames, s.chains + [ids])
  {
    (|s.chains|, Store(s.frames, s.chains + [ids]))
  }

  /** Replaces the contents of frame `id` in place. */
  function SetFrame(s: Store, id: FrameId, m: map<Value, Value>): Store
  {
    if id < |s.frames| then Store(s.frames[id := m], s.chains) else s
  }

  /** `frame[name] = v` on the frame with address `id`. */
  function Assign(s: Store, id: FrameId, name: Value, v: Value): (t: Store)
    ensures id < |s.frames| ==> FrameAt(t, id) == FrameAt(s, id)[name := v]
    ensures forall other | other != id :: FrameAt(t, other) == FrameAt(s, other)
    ensures t.chains == s.chains && |t.frames| == |s.frames|
  {
    SetFrame(s, id, FrameAt(s, id)[name := v])
  }

  /** `env.unshift(frame)`: the environment object itself gains a frame in front. */
  function Unshift(s: Store, env: EnvId, id: FrameId): Store
  {
    if env < |s.chains| then Store(s.frames, s.chains[env := [id] + s.chains[env]]) else s
  }

  /** `extend_env`: a new environment whose frame 0 is a new frame binding `params` to
      `args`, followed by the frames of `env`; `env` itself and every existing frame are
      left as they were. */
  function ExtendEnv(params: seq<Value>, args: seq<Value>, env: EnvId, s: Store): (r: (EnvId, Store))
    ensures r.0 == |s.chains|
    ensures r.1.frames == s.frames + [Bind(map[], params, args)]
    ensures r.1.chains == s.chains + [[|s.frames|] + ChainIds(s, env)]
  {
    var (id, s1) := NewFrame(s, Bind(map[], params, args));
    NewEnv(s1, [id] + ChainIds(s1, env))
  }

  /** `extend_env_q`: the same new frame, but unshifted into the environment object `env`,
      which every closure holding `env` then sees; no other environment changes. */
  function ExtendEnvQ(params: seq<Value>, args: seq<Value>, env: EnvId, s: Store): (t: Store)
    ensures t.frames == s.frames + [Bind(map[], params, args)]
    ensures |t.chains| == |s.chains|
    ensures env < |s.chains| ==> t.chains[env] == [|s.frames|] + s.chains[env]
    ensures forall e | 0 <= e < |s.chains| && e != env :: t.chains[e] == s.chains[e]
  {
    var (id, s1) := NewFrame(s, Bind(map[], params, args));
    Unshift(s1, env, id)
  }

  /** Every frame address in the chain of `env` is allocated. */
  ghost predicate ChainAllocated(s: Store, env: EnvId)
  {
    env < |s.chains| && forall i | 0 <= i < |s.chains[env]| :: s.chains[env][i] < |s.frames|
  }

  /** Where the frames of `env` are allocated, `extend_env` gives the chain
      `[frame] + chain(env)` and leaves the chain of `env` as it was. */
  lemma ExtendEnvChains(params: seq<Value>, args: seq<Value>, env: EnvId, s: Store)
    requires ChainAllocated(s, env)
    ensures Chain(ExtendEnv(params, args, env, s).1, ExtendEnv(params, args, env, s).0)
      == [Bind(map[], params, args)] + Chain(s, env)
    ensures Chain(ExtendEnv(params, args, env, s).1, env) == Chain(s, env)
    ensures ChainAllocated(ExtendEnv(params, args, env, s).1, ExtendEnv(params, args, env, s).0)
    ensures ChainAllocated(ExtendEnv(params, args, env, s).1, env)
  {
    var (e, t) := ExtendEnv(params, args, env, s);
    var ids := s.chains[env];
    assert t.chains[env] == ids && t.chains[e] == [|s.frames|] + ids;
    forall i | 0 <= i < |ids|
      ensures FrameAt(t, ids[i]) == FrameAt(s, ids[i])
    {
    }
    assert Chain(t, e) == [Bind(map[], params, args)] + Chain(s, env);
    assert Chain(t, env) == Chain(s, env);
  }

  /** In a well-formed store `extend_env_q` grows the chain of `env` by exactly one
      frame, in front. */
  lemma ExtendEnvQChain(params: seq<Value>, args: seq<Value>, env: EnvId, s: Store)
    requires WellFormed(s) && env < |s.chains|
    ensures Chain(ExtendEnvQ(params, args, env, s), env) == [Bind(map[], params, args)] + Chain(s, env)
  {
    var t := ExtendEnvQ(params, args, env, s);
    assert Chain(t, env) == [Bind(map[], params, args)] + Chain(s, env);
  }

  /** `set_extend_env_q`: writes `params.zip(vals)` into `ext_env[0]`, the frame that is
      innermost in `ext` at the time of the write, in place. */
  function SetExtendEnvQ(params: seq<Value>, vals: seq<Value>, ext: EnvId, s: Store): (t: Store)
    ensures |ChainIds(s, ext)| > 0 && ChainIds(s, ext)[0] < |s.frames| ==>
      FrameAt(t, ChainIds(s, ext)[0]) == Bind(FrameAt(s, ChainIds(s, ext)[0]), params, vals)
    ensures t.chains == s.chains && |t.frames| == |s.frames|
    ensures forall other | |ChainIds(s, ext)| == 0 || other != ChainIds(s, ext)[0] :: FrameAt(t, other) == FrameAt(s, other)
  {
    var ids := ChainIds(s, ext);
    if |ids| == 0 then s
    else SetFrame(s, ids[0], Bind(FrameAt(s, ids[0]), params, vals))
  }

  /** The frame `letrec` starts from: every name bound to the symbol `:dummy`. */
  function DummyArgs(params: seq<Value>): (vals: seq<Value>)
    ensures |vals| == |params|
    ensures forall i | 0 <= i < |vals| :: vals[i] == Sym("dummy")
  {
    seq(|params|, i => Sym("dummy"))
  }

  /** Every frame address in an environment is allocated, and every value in a frame
      refers only to allocated environments. */
  ghost predicate WellFormed(s: Store)
  {
    (forall e, i | 0 <= e < |s.chains| && 0 <= i < |s.chains[e]| :: s.chains[e][i] < |s.frames|) &&
    (forall id, k | 0 <= id < |s.frames| && k in s.frames[id] :: Within(s.frames[id][k], |s.chains|))
  }

  ghost predicate FrameWithin(m: map<Value, Value>, envCount: nat)
  {
    forall k | k in m :: Within(m[k], envCount)
  }

  /** The store only grows: addresses stay valid. */
  ghost predicate Grows(s: Store, t: Store)
  {
    |s.frames| <= |t.frames| && |s.chains| <= |t.chains|
  }
}
