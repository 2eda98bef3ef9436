/**
 * The string-keyed service registry of the application core
 * (template/src/Core/Infrastructure/Container/container.ts).
 *
 * A factory is an opaque zero-argument producer. Invoking one hands out an
 * object with a fresh identity, and every invocation is logged, so that the
 * proofs can count how often a factory ran and compare identities the way
 * the source compares references.
 */
module ServiceContainer {
  import opened Wrappers

  /** A zero-argument producer, identified by the class it constructs. */
  datatype Factory = Factory(name: string)

  /** An object produced by a factory; `id` is its reference identity. */
  datatype Instance = Instance(id: nat, madeBy: Factory)

  /** The error `resolve` throws for a token nobody registered. */
  datatype ResolveError = NotFound(token: string) {
    function Message(): string {
      "Service " + token + " not found"
    }
  }

  /**
   * The three maps of the container, plus the outside world a factory call
   * touches: the identity the next constructed object gets and the log of
   * every factory invocation so far, oldest first.
   */
  datatype Registry = Registry(
    services: set<string>,              // tokens marked as singletons
    singletons: map<string, Instance>,  // singleton instances built so far
    factories: map<string, Factory>,
    nextId: nat,
    calls: seq<Factory>)
  {
    /** Cached tokens are marked, marked tokens have a factory, and every
        cached instance is older than the next fresh identity. */
    predicate Valid() {
      && singletons.Keys <= services
      && services <= factories.Keys
      && forall t :: t in singletons ==> singletons[t].id < nextId
    }

    /** `register`: stores (or replaces) the factory and nothing else. */
    function Register(token: string, factory: Factory): (r: Registry)
      ensures Valid() ==> r.Valid()
      ensures r.factories.Keys == factories.Keys + {token} && r.factories[token] == factory
      ensures forall t :: t in factories && t != token ==> r.factories[t] == factories[t]
      ensures r.services == services && r.singletons == singletons && r.nextId == nextId && r.calls == calls
    {
      this.(factories := factories[token := factory])
    }

    /** `registerSingleton`: stores the factory and marks the token; the
        factory is not invoked. */
    function RegisterSingleton(token: string, factory: Factory): (r: Registry)
      ensures Valid() ==> r.Valid()
      ensures r.factories.Keys == factories.Keys + {token} && r.factories[token] == factory
      ensures forall t :: t in factories && t != token ==> r.factories[t] == factories[t]
      ensures r.services == services + {token}
      ensures r.singletons == singletons && r.nextId == nextId && r.calls == calls
    {
      this.(factories := factories[token := factory], services := services + {token})
    }

    /** One invocation of `factory`: the fresh object and the state after it. */
    function Invoke(factory: Factory): (r: (Instance, Registry))
      ensures r.0.id == nextId && r.0.madeBy == factory
      ensures r.1.nextId == nextId + 1 && r.1.calls == calls + [factory]
    {
      (Instance(nextId, factory), this.(nextId := nextId + 1, calls := calls + [factory]))
    }

    /** `resolve`: a cached singleton first, then a marked token (built once and
        cached), then a transient factory, otherwise `Service <token> not found`. */
    function Resolve(token: string): (r: (Result<Instance, ResolveError>, Registry))
      requires Valid()
      ensures r.1.Valid()
      ensures r.0.Failure? <==> !Has(token)
    {
      if token in singletons then
        (Success(singletons[token]), this)
      else if token in services then
        var built := Invoke(factories[token]);
        (Success(built.0), built.1.(singletons := singletons[token := built.0]))
      else if token in factories then
        var built := Invoke(factories[token]);
        (Success(built.0), built.1)
      else
        (Failure(NotFound(token)), this)
    }

    /** `has`: a factory or a cached instance exists for the token. */
    predicate Has(token: string) {
      token in factories || token in singletons
    }
  }

  /** A freshly constructed container. */
  function Empty(): (r: Registry)
    ensures r.Valid() && forall t :: !r.Has(t)
  {
    Registry({}, map[], map[], 0, [])
  }

  /** A call on the container, for reasoning about histories of calls. */
  datatype Call =
    | RegisterCall(token: string, factory: Factory)
    | RegisterSingletonCall(token: string, factory: Factory)
    | ResolveCall(token: string)
  {
    predicate Registers(t: string) {
      !ResolveCall? && token == t
    }
  }

  function Apply(r: Registry, c: Call): (r': Registry)
    requires r.Valid()
    ensures r'.Valid()
  {
    match c
    case RegisterCall(t, f) => r.Register(t, f)
    case RegisterSingletonCall(t, f) => r.RegisterSingleton(t, f)
    case ResolveCall(t) => r.Resolve(t).1
  }

  /** The state of a fresh container after the given calls, oldest first. */
  function Run(calls: seq<Call>): (r: Registry)
    ensures r.Valid()
  {
    if calls == [] then Empty() else Apply(Run(calls[..|calls| - 1]), calls[|calls| - 1])
  }

  /** Resolving a token that was never registered throws `Service <token> not found`
      and changes nothing. */
  lemma ResolveUnregisteredFails(r: Registry, t: string)
    requires r.Valid() && t !in r.factories
    ensures r.Resolve(t) == (Failure(NotFound(t)), r)
    ensures NotFound(t).Message() == "Service " + t + " not found"
  {
  }

  /** `registerSingleton` stores the factory and marks the token but runs nothing
      and caches nothing. */
  lemma RegisterSingletonIsLazy(r: Registry, t: string, f: Factory)
    ensures var r' := r.RegisterSingleton(t, f);
      && r'.calls == r.calls && r'.nextId == r.nextId
      && r'.singletons == r.singletons
      && t in r'.services && r'.factories[t] == f && r'.Has(t)
  {
  }

  /** The first resolve of a marked token invokes its factory exactly once, returns
      an object distinct from every cached one, and caches it. */
  lemma FirstResolveBuildsAndCaches(r: Registry, t: string)
    requires r.Valid() && t in r.services && t !in r.singletons
    ensures var (res, r') := r.Resolve(t);
      && res == Success(Instance(r.nextId, r.factories[t]))
      && r'.calls == r.calls + [r.factories[t]]
      && r'.singletons == r.singletons[t := res.value]
      && r'.factories == r.factories && r'.services == r.services
      && forall u :: u in r.singletons ==> r.singletons[u] != res.value
  {
    var i := Instance(r.nextId, r.factories[t]);
    forall u | u in r.singletons
      ensures r.singletons[u] != i
    {
      assert r.singletons[u].id < r.nextId;
    }
  }

  /** Resolving a cached singleton returns the identical object and invokes no
      factory. */
  lemma CachedResolveIsIdentical(r: Registry, t: string)
    requires r.Valid() && t in r.singletons
    ensures r.Resolve(t) == (Success(r.singletons[t]), r)
  {
  }

  /** Two resolves of a singleton give the same object, and only the first may
      invoke the factory. */
  lemma SingletonResolvedTwice(r: Registry, t: string)
    requires r.Valid() && t in r.services
    ensures var first := r.Resolve(t);
      var second := first.1.Resolve(t);
      && first.0.Success? && second.0 == first.0
      && second.1 == first.1
      && |first.1.calls| <= |r.calls| + 1
  {
    var first := r.Resolve(t);
    assert t in first.1.singletons;
    CachedResolveIsIdentical(first.1, t);
  }

  /** A transient token's factory is invoked on every resolve, nothing is cached,
      and two resolves give two distinct objects. */
  lemma TransientResolveRebuilds(r: Registry, t: string)
    requires r.Valid() && t in r.factories && t !in r.services
    ensures var first := r.Resolve(t);
      var second := first.1.Resolve(t);
      && first.0 == Success(Instance(r.nextId, r.factories[t]))
      && first.1.calls == r.calls + [r.factories[t]]
      && second.1.calls == r.calls + [r.factories[t], r.factories[t]]
      && first.1.singletons == r.singletons && second.1.singletons == r.singletons
      && second.0.Success? && second.0.value != first.0.value
  {
    var first := r.Resolve(t);
    assert t !in r.singletons;
    assert first.1.factories == r.factories && first.1.services == r.services;
    assert first.1.singletons == r.singletons;
  }

  /** Once a singleton is cached, registering the token again, as either kind,
      does not change what resolve returns. */
  lemma ReRegisterKeepsCachedInstance(r: Registry, t: string, f: Factory, asSingleton: bool)
    requires r.Valid() && t in r.singletons
    ensures var r' := if asSingleton then r.RegisterSingleton(t, f) else r.Register(t, f);
      r'.Resolve(t).0 == r.Resolve(t).0 == Success(r.singletons[t])
  {
    var r' := if asSingleton then r.RegisterSingleton(t, f) else r.Register(t, f);
    assert r'.singletons == r.singletons;
  }

  /** `register` on a token marked singleton (not yet built) swaps the factory but
      keeps the mark: the next resolve builds with the new factory and caches. */
  lemma RegisterKeepsSingletonMark(r: Registry, t: string, f: Factory)
    requires r.Valid() && t in r.services && t !in r.singletons
    ensures var r' := r.Register(t, f);
      && t in r'.services
      && r'.Resolve(t).0 == Success(Instance(r.nextId, f))
      && r'.Resolve(t).1.singletons == r.singletons[t := Instance(r.nextId, f)]
      && r'.Resolve(t).1.calls == r.calls + [f]
  {
    var r' := r.Register(t, f);
    FirstResolveBuildsAndCaches(r', t);
  }

  /** After any history of calls on a fresh container, `has(t)` holds exactly when
      some call registered `t`, as either kind. */
  lemma {:induction false} HasIffRegistered(calls: seq<Call>, t: string)
    ensures Run(calls).Has(t) <==> exists i :: 0 <= i < |calls| && calls[i].Registers(t)
  {
    if calls == [] {
    } else {
      var prefix := calls[..|calls| - 1];
      var last := calls[|calls| - 1];
      HasIffRegistered(prefix, t);
      var before := Run(prefix);
      assert Run(calls) == Apply(before, last);
      assert Run(calls).Has(t) <==> before.Has(t) || last.Registers(t);
      if before.Has(t) {
        var i :| 0 <= i < |prefix| && prefix[i].Registers(t);
        assert calls[i] == prefix[i];
      }
      if exists i :: 0 <= i < |calls| && calls[i].Registers(t) {
        var i :| 0 <= i < |calls| && calls[i].Registers(t);
        if i < |prefix| {
          assert prefix[i] == calls[i];
        }
      }
    }
  }

  /**
   * The container object. Its three maps are updated in place by the
   * registration methods, and `Resolve` fills the singleton cache.
   */
  class Container {
    var services: set<string>
    var singletons: map<string, Instance>
    var factories: map<string, Factory>
    var nextId: nat
    var calls: seq<Factory>

    /** The abstract value of the object. */
    function State(): Registry
      reads this
    {
      Registry(services, singletons, factories, nextId, calls)
    }

    predicate Valid()
      reads this
    {
      State().Valid()
    }

    constructor ()
      ensures Valid() && State() == Empty()
    {
      services, singletons, factories := {}, map[], map[];
      nextId, calls := 0, [];
    }

    method Register(token: string, factory: Factory)
      requires Valid()
      modifies this
      ensures Valid() && State() == old(State()).Register(token, factory)
    {
      factories := factories[token := factory];
    }

    method RegisterSingleton(token: string, factory: Factory)
      requires Valid()
      modifies this
      ensures Valid() && State() == old(State()).RegisterSingleton(token, factory)
    {
      factories := factories[token := factory];
      services := services + {token};
    }

    /** Calls a factory: a new object, and the call is logged. */
    method Invoke(factory: Factory) returns (instance: Instance)
      modifies this
      ensures (instance, State()) == old(State()).Invoke(factory)
    {
      instance := Instance(nextId, factory);
      nextId, calls := nextId + 1, calls + [factory];
    }

    method Resolve(token: string) returns (r: Result<Instance, ResolveError>)
      requires Valid()
      modifies this
      ensures Valid() && (r, State()) == old(State()).Resolve(token)
    {
      if token in singletons {
        return Success(singletons[token]);
      }
      if token in services {
        var instance := Invoke(factories[token]);
        singletons := singletons[token := instance];
        return Success(instance);
      }
      if token in factories {
        var instance := Invoke(factories[token]);
        return Success(instance);
      }
      return Failure(NotFound(token));
    }

    /** In a valid container a token is known exactly when it has a factory. */
    predicate Has(token: string)
      reads this
      ensures Valid() ==> (Has(token) <==> token in factories)
    {
      token in factories || token in singletons
    }
  }
}
