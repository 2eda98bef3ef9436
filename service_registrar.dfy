/**
 * Registration of the infrastructure managers
 * (template/src/Core/Infrastructure/service-registrar.ts).
 */
module ServiceRegistration {
  import opened ServiceContainer

  const MiddlewareManagerToken := "MiddlewareManager"
  const RoutingManagerToken := "RoutingManager"
  const ErrorHandlingManagerToken := "ErrorHandlingManager"

  /** The producers `() => new MiddlewareManager()` and its two siblings. */
  const MiddlewareManagerFactory := Factory("MiddlewareManager")
  const RoutingManagerFactory := Factory("RoutingManager")
  const ErrorHandlingManagerFactory := Factory("ErrorHandlingManager")

  /** The tokens registered by `registerInfrastructureServices`. */
  function ManagerTokens(): set<string> {
    {MiddlewareManagerToken, RoutingManagerToken, ErrorHandlingManagerToken}
  }

  /** The factory registered under each manager token. */
  function ManagerFactory(t: string): Factory
    requires t in ManagerTokens()
  {
    if t == MiddlewareManagerToken then MiddlewareManagerFactory
    else if t == RoutingManagerToken then RoutingManagerFactory
    else ErrorHandlingManagerFactory
  }

  function InfrastructureRegistration(r: Registry): Registry {
    r.RegisterSingleton(MiddlewareManagerToken, MiddlewareManagerFactory)
     .RegisterSingleton(RoutingManagerToken, RoutingManagerFactory)
     .RegisterSingleton(ErrorHandlingManagerToken, ErrorHandlingManagerFactory)
  }

  /** Domain registration is empty in the template. */
  function DomainRegistration(r: Registry): Registry {
    r
  }

  /** Service initialisation is empty in the template. */
  function Initialization(r: Registry): Registry {
    r
  }

  /** `registerAll`: infrastructure, then domain, then initialisation. */
  function Registration(r: Registry): (r': Registry)
    ensures r.Valid() ==> r'.Valid()
  {
    Initialization(DomainRegistration(InfrastructureRegistration(r)))
  }

  /** After `registerAll` the three managers are marked singletons under their own
      factories, `has` holds for them and resolving them cannot throw; no other
      token is added and no factory is invoked. */
  lemma RegisterAllMarksManagers(r: Registry)
    requires r.Valid()
    ensures var r' := Registration(r);
      && r'.services == r.services + ManagerTokens()
      && r'.factories.Keys == r.factories.Keys + ManagerTokens()
      && (forall t :: t in ManagerTokens() ==>
            r'.factories[t] == ManagerFactory(t) && r'.Has(t) && r'.Resolve(t).0.Success?)
      && (forall t :: t in r.factories && t !in ManagerTokens() ==> r'.factories[t] == r.factories[t])
      && r'.singletons == r.singletons && r'.calls == r.calls && r'.nextId == r.nextId
  {
    var r' := Registration(r);
    forall t | t in ManagerTokens()
      ensures r'.factories[t] == ManagerFactory(t) && r'.Has(t) && r'.Resolve(t).0.Success?
    {
    }
  }

  /** The registrar works on the container it was given. */
  class ServiceRegistrar {
    const container: Container

    constructor (container: Container)
      ensures this.container == container
    {
      this.container := container;
    }

    method RegisterAll()
      requires container.Valid()
      modifies container
      ensures container.Valid() && container.State() == Registration(old(container.State()))
    {
      RegisterInfrastructureServices();
      RegisterDomainServices();
      InitializeServices();
    }

    method RegisterInfrastructureServices()
      requires container.Valid()
      modifies container
      ensures container.Valid()
      ensures container.State() == InfrastructureRegistration(old(container.State()))
    {
      container.RegisterSingleton(MiddlewareManagerToken, MiddlewareManagerFactory);
      container.RegisterSingleton(RoutingManagerToken, RoutingManagerFactory);
      container.RegisterSingleton(ErrorHandlingManagerToken, ErrorHandlingManagerFactory);
    }

    /** Empty in the template: no domain service is registered. */
    method RegisterDomainServices() {
    }

    /** Empty in the template: no service is resolved eagerly. */
    method InitializeServices() {
    }
  }
}
