# dependency_provider, modelled in Dafny

The Rust crate `dependency_provider` is a type-indexed registry. A
`DependencyProvider` holds, for each Rust type `T`, at most one provider
function: a closure `Fn() -> T` that is called afresh on every lookup. A
process-wide holder, `GLOBAL_PROVIDER`, keeps one optional provider. `init`
fills it. `get_dependency::<T>()` reads through it and panics when nothing was
installed.

The model has three files:

- `wrappers.dfy`: the `Option` datatype.
- `dependency_provider.dfy` (module `DependencyProviders`, for `src/lib.rs`):
  - `TypeKey` stands for a type's `TypeId`.
  - A `Value` carries the type it belongs to (`TypeOf`).
  - `ProviderFunction` wraps a closure `Env -> Value`. `Env` is the state
    outside the registry that the closure can observe when it is called.
  - The class `DependencyProvider` has one field, `providers: map<TypeKey, ProviderFunction>`.
  - Its invariant `Valid()` (= `WellTyped`) says every stored provider function
    yields values of its own key's type. This is how the model states that
    `Depenency<T>` maps to `ProviderFunction<T>`.
  - `register`, `register_default` and `unregister` become methods that
    update the map in place. Each is specified by the pure function `Apply`.
  - `Run` applies a builder chain `new().register(..).register(..)`. The
    lemma `LastRegistrationWins` is proved about it.
- `global_provider.dfy` (module `GlobalProviders`, for `src/global_provider.rs`):
  - The class `GlobalProvider` has one field, `provider: Option<DependencyProvider>`.
  - `get_dependency` is the read-only function `GetDependency`. Its
    `Outcome` is either `Panic` or `Return(value)`, so the call that panics is
    modelled explicitly rather than excluded by a precondition.

The doc-tests and unit tests appear as client methods that use only the
contracts: `ChainedRegistrationExample`, `RegisterDefaultExample`,
`UnregisterExample`, `SharedStateExample` (the `shared_ref` test, with the
shared counter as cell 0 of `Env`), `GlobalProviderExample`,
`WithoutInitExample` and `ReinitExample`.

## Model

| member | source | states |
|---|---|---|
| `DependencyProviders.ProviderFunction.New` | src/lib.rs:11-23 | calling the wrapped provider function (`call`) runs the given closure, in whatever state it is called |
| `DependencyProviders.DefaultProvider` | src/lib.rs:110-117 | the provider function built from `T::default` yields the default value on every call, so it produces the type of that value |
| `DependencyProviders.Apply` | src/lib.rs:84-140 | a registration sets its own type's slot (the new provider function for `register` and `register_default`, empty for `unregister`) and leaves every other type's slot as it was; it keeps the map well typed when the registration is well typed |
| `DependencyProviders.Run` | src/lib.rs:78-92 | a chain of well-typed registrations keeps the map well typed, and it introduces no key that the chain does not name |
| `DependencyProviders.LastOn` | src/lib.rs:81-83 | gives the position of the last call in a chain that names the type, with no later call naming it; gives nothing exactly when no call names the type |
| `DependencyProviders.LastRegistrationWins` | src/lib.rs:81-83 | after any chain, a type's slot holds what the chain's last call for that type left there (a `register`'s function, the default provider, or nothing after `unregister`); a type the chain never names keeps its slot |
| `DependencyProviders.RegisterReplaces` | src/lib.rs:58-60 | registering twice for one type is the same as registering only the second function |
| `DependencyProviders.RegisterKeepsOneSlot` | src/lib.rs:89-90 | a registration never makes a duplicate entry: the map grows by one only when the type was absent |
| `DependencyProviders.UnregisterAbsentIsNoop` | src/lib.rs:135-140 | unregistering an absent type leaves the map unchanged; unregistering twice is the same as once; the map shrinks by one only when the type was present |
| `DependencyProviders.DependencyProvider.constructor` | src/lib.rs:66-72 | a new provider is well typed, has no registrations, and `get` gives `None` for every type |
| `DependencyProviders.DependencyProvider.Default` | src/lib.rs:155-159 | `Default::default()` is a provider with no registrations, as `new` is |
| `DependencyProviders.DependencyProvider.Register` | src/lib.rs:74-92 | the map becomes the old map with `T`'s slot set to the new provider function; `get::<T>()` afterwards returns what the closure returns; other types answer as before; the same provider is returned so that calls can be chained |
| `DependencyProviders.DependencyProvider.RegisterDefault` | src/lib.rs:94-117 | `T`'s slot becomes the provider of `T::default()`; `get::<T>()` afterwards returns `Some(T::default())` in every state; other types answer as before |
| `DependencyProviders.DependencyProvider.Unregister` | src/lib.rs:119-140 | `T`'s slot is removed whether or not it was set; `get::<T>()` afterwards returns `None`; other types answer as before |
| `DependencyProviders.DependencyProvider.Get` | src/lib.rs:142-152 | returns `Some` exactly when a provider function is registered for `T`; the value is the result of calling that function in the state current at this lookup, so nothing is cached; the value has type `T` |
| `GlobalProviders.GlobalProvider.constructor` | src/global_provider.rs:5-7 | the holder starts empty, and every `get_dependency` panics |
| `GlobalProviders.GlobalProvider.Init` | src/global_provider.rs:9-12 | the holder afterwards holds exactly the given provider, whatever it held before (no merging); every `get_dependency::<T>()` then answers as that provider's `get::<T>()` |
| `GlobalProviders.GlobalProvider.GetDependency` | src/global_provider.rs:14-20 | panics exactly when no provider is installed; otherwise returns the installed provider's `get::<T>()`, whose value has type `T`; it only reads the holder |
| `GlobalProviders.GlobalProvider.Reset` | src/global_provider.rs:33-36 | the holder is empty again, so every `get_dependency` panics |

## Left out

- The `RwLock` around the holder is left out, and so are lock poisoning (the `unwrap` on `read()` and `write()`) and the `Send + Sync` bounds. The model is the sequential behaviour of the holder.
- `lazy_static!` initialisation is left out. The holder is an object whose constructor leaves it empty.
- The `typemap` crate's `ShareMap` and `TypeId` hashing are left out. A Dafny `map` keyed by `TypeKey` stands in for them.
- What the caller's closures compute is not modelled. They are arbitrary functions of `Env`, and shared mutable state such as `Arc<Mutex<_>>` appears only as that parameter. The state changes between lookups in `SharedStateExample` are made by the caller.
- The `trait_objects` test is not modelled, because trait objects have no counterpart here.
- The panic message is not modelled. A panic is the `Panic` outcome.
- The injection macro is not part of this model.
- GlobalProviders.GlobalProvider.Init: Rust moves the provider into the holder. The model keeps a reference, so a caller could in principle change the installed provider through an alias, which Rust's ownership rules prevent.
- DependencyProviders.DependencyProvider.RegisterDefault: the `Default` trait is represented by the value `T::default()` that the caller passes in. A `Default` implementation whose result depends on outside state is not modelled.
- DependencyProviders.DependencyProvider.Register: Rust infers `T` from the closure's return type. The model passes the type key explicitly and requires the closure to return values of that type.
