/**
  A provider of dependencies (src/lib.rs): a map from the identity of a type
  to the one provider function registered for that type.

  Rust keys the map by compile-time type, so a value fetched for `T` has type
  `T` by construction. Here the type identity is a `TypeKey`, every value
  carries the type it belongs to, and the invariant `WellTyped` says that the
  provider function stored under a key only ever yields values of that key's
  type.
 */
module DependencyProviders {
  import opened Wrappers

  /** The identity of a Rust type, as `std::any::TypeId` gives it. */
  datatype TypeKey = TypeId(id: nat)

  /** A Rust value: the type it belongs to and its fields. */
  datatype Value = Value(ty: TypeKey, fields: seq<int>)

  function TypeOf(v: Value): TypeKey
  {
    v.ty
  }

  /**
    The state outside the provider that a provider closure can observe when it
    is called, e.g. the shared cells behind an `Arc<Mutex<_>>` it captured.
   */
  type Env = map<nat, int>

  /** `ProviderFunction<T>`: a boxed closure `Fn() -> T`, called afresh each time. */
  datatype ProviderFunction = ProviderFunction(produce: Env -> Value)
  {
    /** `ProviderFunction::new`: wraps `f`; calling the result calls `f`. */
    static function New(f: Env -> Value): (pf: ProviderFunction)
      ensures forall env :: pf.Call(env) == f(env)
    {
      ProviderFunction(f)
    }

    /** `ProviderFunction::call`: runs the closure in the current state. */
    function Call(env: Env): Value
    {
      produce(env)
    }
  }

  /** `pf` is a `ProviderFunction<T>` for the type `t`: every call yields a `t`. */
  ghost predicate Produces(pf: ProviderFunction, t: TypeKey)
  {
    forall env :: TypeOf(pf.Call(env)) == t
  }

  /** The provider function `ProviderFunction::new(T::default)`, where `T::default()` is `d`. */
  function DefaultProvider(d: Value): (pf: ProviderFunction)
    ensures forall env :: pf.Call(env) == d
    ensures Produces(pf, TypeOf(d))
  {
    ProviderFunction.New(env => d)
  }

  /** The `ShareMap` of a provider: one slot per type. */
  type Providers = map<TypeKey, ProviderFunction>

  /** `Depenency<T>` maps to `ProviderFunction<T>`: each slot yields its own type. */
  ghost predicate WellTyped(m: Providers)
  {
    forall t | t in m :: Produces(m[t], t)
  }

  /** The provider function stored for `t`, if any (`ShareMap::get`). */
  function Slot(m: Providers, t: TypeKey): Option<ProviderFunction>
  {
    if t in m then Some(m[t]) else None
  }

  /** One of the calls that change a provider's map. */
  datatype Registration =
    | Register(key: TypeKey, provider: ProviderFunction)
    | RegisterDefault(key: TypeKey, defaultValue: Value)
    | Unregister(key: TypeKey)

  /** What a registration leaves in the slot of its key. */
  function Effect(r: Registration): Option<ProviderFunction>
  {
    match r
    case Register(_, pf) => Some(pf)
    case RegisterDefault(_, d) => Some(DefaultProvider(d))
    case Unregister(_) => None
  }

  /**
    What Rust's type checker demands of a registration: the closure given to
    `register::<T>` returns `T`, and `T::default()` is a `T`.
   */
  ghost predicate Admissible(r: Registration)
  {
    match r
    case Register(t, pf) => Produces(pf, t)
    case RegisterDefault(t, d) => TypeOf(d) == t
    case Unregister(_) => true
  }

  /** The map after one registration call. */
  function Apply(m: Providers, r: Registration): (m': Providers)
    ensures Slot(m', r.key) == Effect(r)
    ensures forall t :: t != r.key ==> Slot(m', t) == Slot(m, t)
    ensures WellTyped(m) && Admissible(r) ==> WellTyped(m')
  {
    match r
    case Register(t, pf) => m[t := pf]
    case RegisterDefault(t, d) => m[t := DefaultProvider(d)]
    case Unregister(t) => m - {t}
  }

  /** The keys a chain of registrations names. */
  function KeysOf(rs: seq<Registration>): set<TypeKey>
  {
    set i | 0 <= i < |rs| :: rs[i].key
  }

  /**
    The map after a chain of calls, as in
    `DependencyProvider::new().register(f1).register(f2)`, which is
    `Run(map[], [Register(A, f1), Register(B, f2)])`.
   */
  function Run(m: Providers, rs: seq<Registration>): (m': Providers)
    ensures WellTyped(m) && (forall i | 0 <= i < |rs| :: Admissible(rs[i])) ==> WellTyped(m')
    ensures m'.Keys <= m.Keys + KeysOf(rs)
    decreases |rs|
  {
    if rs == [] then m
    else
      var prefix := rs[..|rs| - 1];
      assert KeysOf(prefix) <= KeysOf(rs) by {
        forall k | k in KeysOf(prefix) ensures k in KeysOf(rs) {
          var i :| 0 <= i < |prefix| && prefix[i].key == k;
          assert rs[i].key == k;
        }
      }
      var before := Run(m, prefix);
      var after := Apply(before, rs[|rs| - 1]);
      assert after.Keys <= before.Keys + {rs[|rs| - 1].key} by {
        forall k | k in after && k != rs[|rs| - 1].key ensures k in before {
          assert Slot(after, k) == Slot(before, k);
        }
      }
      after
  }

  /** The position of the last registration for `t` in a chain, if there is one. */
  function LastOn(rs: seq<Registration>, t: TypeKey): (r: Option<nat>)
    ensures r.Some? ==> r.value < |rs| && rs[r.value].key == t
    ensures r.Some? ==> forall j | r.value < j < |rs| :: rs[j].key != t
    ensures r.None? ==> forall j | 0 <= j < |rs| :: rs[j].key != t
    decreases |rs|
  {
    if rs == [] then None
    else if rs[|rs| - 1].key == t then Some(|rs| - 1)
    else LastOn(rs[..|rs| - 1], t)
  }

  /**
    Only the last registration for a type counts: after a chain of calls the
    slot of `t` holds what the chain's last call for `t` left there, and is
    untouched when the chain never names `t`.
   */
  lemma {:induction false} LastRegistrationWins(m: Providers, rs: seq<Registration>, t: TypeKey)
    ensures LastOn(rs, t).Some? ==> Slot(Run(m, rs), t) == Effect(rs[LastOn(rs, t).value])
    ensures LastOn(rs, t).None? ==> Slot(Run(m, rs), t) == Slot(m, t)
    decreases |rs|
  {
    if rs != [] {
      var prefix := rs[..|rs| - 1];
      LastRegistrationWins(m, prefix, t);
      if rs[|rs| - 1].key != t {
        var l := LastOn(prefix, t);
        if l.Some? {
          assert prefix[l.value] == rs[l.value];
        }
      }
    }
  }

  /** Registering twice for one type keeps only the second provider function. */
  lemma RegisterReplaces(m: Providers, t: TypeKey, first: ProviderFunction, second: ProviderFunction)
    ensures Apply(Apply(m, Register(t, first)), Register(t, second)) == Apply(m, Register(t, second))
  {
  }

  /** Registering never creates a second entry: the map grows only when the type was absent. */
  lemma RegisterKeepsOneSlot(m: Providers, r: Registration)
    requires !r.Unregister?
    ensures |Apply(m, r)| == if r.key in m then |m| else |m| + 1
  {
  }

  /** Unregistering an absent type changes nothing; unregistering twice is unregistering once. */
  lemma UnregisterAbsentIsNoop(m: Providers, t: TypeKey)
    ensures t !in m ==> Apply(m, Unregister(t)) == m
    ensures Apply(Apply(m, Unregister(t)), Unregister(t)) == Apply(m, Unregister(t))
    ensures |Apply(m, Unregister(t))| == if t in m then |m| - 1 else |m|
  {
  }

  /** `DependencyProvider`: the provider functions registered so far. */
  class DependencyProvider {
    var providers: Providers

    ghost predicate Valid()
      reads this
    {
      WellTyped(providers)
    }

    /** `DependencyProvider::new`: no provider function is registered. */
    constructor ()
      ensures Valid() && providers == map[]
      ensures forall t, env :: Get(t, env) == None
    {
      providers := map[];
    }

    /** `impl Default for DependencyProvider`: the same as `new`. */
    constructor Default()
      ensures Valid() && providers == map[]
      ensures forall t, env :: Get(t, env) == None
    {
      providers := map[];
    }

    /**
      `register::<T>(f)`: stores `f` as the provider function for `T`,
      replacing an earlier one, and returns the provider itself for chaining.
     */
    method Register(t: TypeKey, f: Env -> Value) returns (self: DependencyProvider)
      requires Valid()
      requires forall env :: TypeOf(f(env)) == t
      modifies this
      ensures self == this && Valid()
      ensures providers == Apply(old(providers), Registration.Register(t, ProviderFunction.New(f)))
      ensures forall env :: Get(t, env) == Some(f(env))
      ensures forall k, env :: k != t ==> Get(k, env) == old(Get(k, env))
    {
      providers := providers[t := ProviderFunction.New(f)];
      self := this;
    }

    /** `register_default::<T>()`, where `T::default()` is `d`. */
    method RegisterDefault(t: TypeKey, d: Value) returns (self: DependencyProvider)
      requires Valid()
      requires TypeOf(d) == t
      modifies this
      ensures self == this && Valid()
      ensures providers == Apply(old(providers), Registration.RegisterDefault(t, d))
      ensures forall env :: Get(t, env) == Some(d)
      ensures forall k, env :: k != t ==> Get(k, env) == old(Get(k, env))
    {
      providers := providers[t := DefaultProvider(d)];
      self := this;
    }

    /** `unregister::<T>()`: removes the provider function for `T`, if there is one. */
    method Unregister(t: TypeKey)
      requires Valid()
      modifies this
      ensures Valid()
      ensures providers == Apply(old(providers), Registration.Unregister(t))
      ensures forall env :: Get(t, env) == None
      ensures forall k, env :: k != t ==> Get(k, env) == old(Get(k, env))
    {
      providers := providers - {t};
    }

    /**
      `get::<T>()`: calls the provider function registered for `T` in the
      current state `env`, or gives `None` when there is none. The result is
      a `T`.
     */
    function Get(t: TypeKey, env: Env): (r: Option<Value>)
      requires Valid()
      reads this
      ensures r.Some? <==> t in providers
      ensures r.Some? ==> TypeOf(r.value) == t
      ensures r.Some? ==> r.value == providers[t].Call(env)
    {
      if t in providers then Some(providers[t].Call(env)) else None
    }
  }

  /** The example in the documentation of `DependencyProvider`. */
  method ChainedRegistrationExample()
  {
    var a, b, c := TypeId(0), TypeId(1), TypeId(2);
    var env: Env := map[];
    var d := new DependencyProvider();
    d := d.Register(a, e => Value(a, []));
    d := d.Register(b, e => Value(b, [0]));
    assert d.Get(a, env) == Some(Value(a, []));
    assert d.Get(b, env) == Some(Value(b, [0]));
    assert d.Get(c, env) == None;
    d := d.Register(b, e => Value(b, [42]));
    assert d.Get(b, env) == Some(Value(b, [42]));
    assert d.Get(a, env) == Some(Value(a, []));
  }

  /** The example in the documentation of `register_default`, with `B::default()` being `B(0)`. */
  method RegisterDefaultExample()
  {
    var b := TypeId(1);
    var d := new DependencyProvider();
    d := d.RegisterDefault(b, Value(b, [0]));
    assert d.Get(b, map[]) == Some(Value(b, [0]));
  }

  /** The example in the documentation of `unregister`. */
  method UnregisterExample()
  {
    var a := TypeId(0);
    var d := new DependencyProvider();
    d := d.Register(a, e => Value(a, []));
    assert d.Get(a, map[]) == Some(Value(a, []));
    d.Unregister(a);
    assert d.Get(a, map[]) == None;
    d.Unregister(a);
    assert d.Get(a, map[]) == None;
  }

  /**
    The `shared_ref` test: the provider function reads a shared counter (cell 0)
    when it is called, so each `get` sees the counter as it is at that moment.
   */
  method SharedStateExample()
  {
    var foo := TypeId(3);
    var d := new DependencyProvider();
    d := d.Register(foo, e => Value(foo, [if 0 in e then e[0] else 0]));
    var counter: Env := map[0 := 0];
    counter := counter[0 := counter[0] + 1];
    assert d.Get(foo, counter) == Some(Value(foo, [1]));
    counter := counter[0 := counter[0] + 1];
    assert d.Get(foo, counter) == Some(Value(foo, [2]));
  }
}
