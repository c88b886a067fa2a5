/**
  The global provider (src/global_provider.rs): one process-wide holder of an
  optional `DependencyProvider`, empty until `init` installs one.
 */
module GlobalProviders {
  import opened Wrappers
  import opened DependencyProviders

  /** How a call of `get_dependency` ends: a panic, or a normal return. */
  datatype Outcome = Panic | Return(value: Option<Value>)

  /** `GLOBAL_PROVIDER`: the holder, without its lock. */
  class GlobalProvider {
    var provider: Option<DependencyProvider>

    /** The objects the holder's state depends on. */
    ghost function Held(): set<object>
      reads this
    {
      if provider.Some? then {provider.value} else {}
    }

    ghost predicate Valid()
      reads this, Held()
    {
      provider.Some? ==> provider.value.Valid()
    }

    /** The holder as the process starts: `RwLock::new(None)`. */
    constructor ()
      ensures provider == None && Valid()
      ensures forall t, env :: GetDependency(t, env) == Panic
    {
      provider := None;
    }

    /** `init(p)`: installs `p`, replacing whatever provider was held before. */
    method Init(p: DependencyProvider)
      requires p.Valid()
      modifies this
      ensures provider == Some(p) && Valid()
      ensures forall t, env :: GetDependency(t, env) == Return(p.Get(t, env))
    {
      provider := Some(p);
    }

    /**
      `get_dependency::<T>()`: panics when no provider was installed, and
      otherwise answers as the installed provider's `get::<T>()` does.
     */
    function GetDependency(t: TypeKey, env: Env): (r: Outcome)
      requires Valid()
      reads this, Held()
      ensures r.Panic? <==> provider.None?
      ensures provider.Some? ==> r == Return(provider.value.Get(t, env))
      ensures r.Return? && r.value.Some? ==> TypeOf(r.value.value) == t
    {
      match provider
      case None => Panic
      case Some(p) => Return(p.Get(t, env))
    }

    /** The test helper `reset`: takes the provider out, leaving the holder empty. */
    method Reset()
      modifies this
      ensures provider == None && Valid()
      ensures forall t, env :: GetDependency(t, env) == Panic
    {
      provider := None;
    }
  }

  /** The `global_provider` test. */
  method GlobalProviderExample()
  {
    var a, b, c := TypeId(0), TypeId(1), TypeId(2);
    var g := new GlobalProvider();
    g.Reset();
    var d := new DependencyProvider();
    d := d.Register(a, e => Value(a, []));
    d := d.Register(b, e => Value(b, [0]));
    g.Init(d);
    assert g.GetDependency(a, map[]) == Return(Some(Value(a, [])));
    assert g.GetDependency(b, map[]) == Return(Some(Value(b, [0])));
    assert g.GetDependency(c, map[]) == Return(None);
  }

  /** The `without_init` test: `get_dependency` panics after `reset`. */
  method WithoutInitExample()
  {
    var a := TypeId(0);
    var g := new GlobalProvider();
    g.Reset();
    assert g.GetDependency(a, map[]) == Panic;
  }

  /** A second `init` replaces the first provider wholesale, without merging. */
  method ReinitExample()
  {
    var a, b := TypeId(0), TypeId(1);
    var g := new GlobalProvider();
    var first := new DependencyProvider();
    first := first.Register(a, e => Value(a, []));
    g.Init(first);
    var second := new DependencyProvider();
    second := second.Register(b, e => Value(b, [7]));
    g.Init(second);
    assert g.GetDependency(a, map[]) == Return(None);
    assert g.GetDependency(b, map[]) == Return(Some(Value(b, [7])));
  }
}
