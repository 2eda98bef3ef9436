/**
 * The four-step bootstrap sequence
 * (template/src/Core/Infrastructure/Bootstrap/application-bootstrapper.ts).
 *
 * The application surface is modelled as the list of layers installed on it,
 * one label per manager. Which setup calls throw is a parameter: `faults`
 * maps a setup phase to the error its call throws.
 */
module Bootstrap {
  import opened Wrappers
  import opened ServiceContainer
  import opened ServiceRegistration

  /** A layer a manager installs on the application surface. */
  datatype Layer = MiddlewareStack | Routes | ErrorHandler

  datatype Phase = Registering | MiddlewareSetup | RoutingSetup | ErrorHandlingSetup

  /** The order in which `bootstrap` runs its steps. */
  const Phases: seq<Phase> := [Registering, MiddlewareSetup, RoutingSetup, ErrorHandlingSetup]

  /** The layers of a complete bootstrap, in installation order. */
  const Layers: seq<Layer> := [MiddlewareStack, Routes, ErrorHandler]

  /** What `bootstrap` rethrows: a failed resolve or a failed setup call. */
  datatype BootError = ServiceNotFound(notFound: ResolveError) | SetupThrew(cause: string)

  /** Everything a bootstrap run leaves behind: its outcome, the container, the
      surface, the phases it entered and the managers it resolved, in order. */
  datatype Boot = Boot(
    outcome: Outcome<BootError>,
    registry: Registry,
    layers: seq<Layer>,
    entered: seq<Phase>,
    managers: seq<Instance>)

  /** The container token each setup phase resolves. */
  function Token(p: Phase): string
    requires p != Registering
  {
    match p
    case MiddlewareSetup => MiddlewareManagerToken
    case RoutingSetup => RoutingManagerToken
    case ErrorHandlingSetup => ErrorHandlingManagerToken
  }

  /** The layer each setup phase installs. */
  function LayerOf(p: Phase): Layer
    requires p != Registering
  {
    match p
    case MiddlewareSetup => MiddlewareStack
    case RoutingSetup => Routes
    case ErrorHandlingSetup => ErrorHandler
  }

  /** One setup step: skipped after a failure, otherwise resolve the manager and
      let it install its layer on the surface, unless its call throws. */
  function SetupStep(b: Boot, p: Phase, faults: map<Phase, string>): (b': Boot)
    requires p != Registering && b.registry.Valid()
    ensures b'.registry.Valid()
  {
    if b.outcome.Fail? then b
    else
      var resolved := b.registry.Resolve(Token(p));
      match resolved.0
      case Failure(e) =>
        Boot(Fail(ServiceNotFound(e)), resolved.1, b.layers, b.entered + [p], b.managers)
      case Success(manager) =>
        if p in faults then
          Boot(Fail(SetupThrew(faults[p])), resolved.1, b.layers, b.entered + [p], b.managers + [manager])
        else
          Boot(Pass, resolved.1, b.layers + [LayerOf(p)], b.entered + [p], b.managers + [manager])
  }

  /** `bootstrap(app)` on a container in state `r` and a surface holding `layers`. */
  function Bootstrapped(r: Registry, layers: seq<Layer>, faults: map<Phase, string>): (b: Boot)
    requires r.Valid()
    ensures b.registry.Valid()
  {
    var registered := Registered(r, layers);
    var middleware := SetupStep(registered, MiddlewareSetup, faults);
    var routing := SetupStep(middleware, RoutingSetup, faults);
    SetupStep(routing, ErrorHandlingSetup, faults)
  }

  /** The index in `Phases` of the first setup phase whose call throws (4 if none). */
  function FirstFault(faults: map<Phase, string>): (k: nat)
    ensures 1 <= k <= 4
    ensures forall j :: 1 <= j < k ==> Phases[j] !in faults
    ensures k < 4 ==> Phases[k] in faults
  {
    if MiddlewareSetup in faults then 1
    else if RoutingSetup in faults then 2
    else if ErrorHandlingSetup in faults then 3
    else 4
  }

  /** One setup step after successful ones, for a manager marked singleton: the
      phase is entered, its manager is the one now cached under its token, and
      the step installs its layer unless its call throws. */
  lemma SetupStepOnMarkedToken(b: Boot, p: Phase, faults: map<Phase, string>)
    requires p != Registering && b.registry.Valid() && b.outcome.Pass?
    requires Token(p) in b.registry.services
    ensures var b' := SetupStep(b, p, faults);
      && b'.entered == b.entered + [p]
      && |b'.managers| == |b.managers| + 1 && b'.managers[..|b.managers|] == b.managers
      && Token(p) in b'.registry.singletons
      && b'.registry.singletons == b.registry.singletons[Token(p) := b'.managers[|b.managers|]]
      && b'.registry.services == b.registry.services
      && b'.outcome == (if p in faults then Fail(SetupThrew(faults[p])) else Pass)
      && b'.layers == (if p in faults then b.layers else b.layers + [LayerOf(p)])
  {
    var b' := SetupStep(b, p, faults);
    assert b'.managers[..|b.managers|] == b.managers;
  }

  /** The bootstrap state right after the registration step. */
  function Registered(r: Registry, layers: seq<Layer>): (b: Boot)
    requires r.Valid()
    ensures b.registry.Valid() && b.outcome.Pass?
  {
    Boot(Pass, Registration(r), layers, [Registering], [])
  }

  /** What the setup steps need from the registration step: the three
      managers are marked under their factories, nothing is built yet. */
  lemma ManagersMarked(r: Registry)
    requires r.Valid()
    ensures var r' := Registration(r);
      && r'.Valid()
      && MiddlewareManagerToken in r'.services && r'.factories[MiddlewareManagerToken] == MiddlewareManagerFactory
      && RoutingManagerToken in r'.services && r'.factories[RoutingManagerToken] == RoutingManagerFactory
      && ErrorHandlingManagerToken in r'.services && r'.factories[ErrorHandlingManagerToken] == ErrorHandlingManagerFactory
      && r'.singletons == r.singletons && r'.calls == r.calls
  {
    RegisterAllMarksManagers(r);
    assert ManagerFactory(MiddlewareManagerToken) == MiddlewareManagerFactory;
    assert ManagerFactory(RoutingManagerToken) == RoutingManagerFactory;
    assert ManagerFactory(ErrorHandlingManagerToken) == ErrorHandlingManagerFactory;
  }

  /** The first two setup steps, as run by `bootstrap`. */
  lemma FirstSetupSteps(r: Registry, layers: seq<Layer>, faults: map<Phase, string>)
    requires r.Valid()
    ensures var middleware := SetupStep(Registered(r, layers), MiddlewareSetup, faults);
      var routing := SetupStep(middleware, RoutingSetup, faults);
      && middleware.entered == [Registering, MiddlewareSetup] && |middleware.managers| == 1
      && middleware.outcome == (if MiddlewareSetup in faults then Fail(SetupThrew(faults[MiddlewareSetup])) else Pass)
      && middleware.layers == (if MiddlewareSetup in faults then layers else layers + [MiddlewareStack])
      && (middleware.outcome.Pass? ==>
            && routing.entered == [Registering, MiddlewareSetup, RoutingSetup] && |routing.managers| == 2
            && routing.outcome == (if RoutingSetup in faults then Fail(SetupThrew(faults[RoutingSetup])) else Pass)
            && routing.layers == (if RoutingSetup in faults then middleware.layers else middleware.layers + [Routes])
            && ErrorHandlingManagerToken in routing.registry.services)
  {
    ManagersMarked(r);
    var registered := Registered(r, layers);
    SetupStepOnMarkedToken(registered, MiddlewareSetup, faults);
    var middleware := SetupStep(registered, MiddlewareSetup, faults);
    if middleware.outcome.Pass? {
      SetupStepOnMarkedToken(middleware, RoutingSetup, faults);
    }
  }

  /**
   * Bootstrap on any valid container: services are registered before any
   * resolve, so no resolve throws; the steps run in the fixed order up to and
   * including the first setup call that throws, whose error is rethrown
   * unchanged, and no later step runs. Without a throwing call the three
   * layers are installed in order and the error handler comes last.
   */
  lemma BootstrapRunsInOrder(r: Registry, layers: seq<Layer>, faults: map<Phase, string>)
    requires r.Valid()
    ensures var b := Bootstrapped(r, layers, faults);
      var k := FirstFault(faults);
      && b.entered == Phases[..if k < 4 then k + 1 else 4]
      && b.layers == layers + Layers[..k - 1]
      && |b.managers| == (if k < 4 then k else 3)
      && (k < 4 ==> b.outcome == Fail(SetupThrew(faults[Phases[k]])))
      && (k == 4 ==> b.outcome == Pass && b.layers[|b.layers| - 1] == ErrorHandler)
  {
    if FirstFault(faults) < 3 {
      EarlyFaultStops(r, layers, faults);
    } else {
      LastStepRuns(r, layers, faults);
    }
  }

  /** A throwing middleware or routing setup ends the bootstrap. */
  lemma EarlyFaultStops(r: Registry, layers: seq<Layer>, faults: map<Phase, string>)
    requires r.Valid() && FirstFault(faults) < 3
    ensures var b := Bootstrapped(r, layers, faults);
      var k := FirstFault(faults);
      && b.entered == Phases[..k + 1]
      && b.layers == layers + Layers[..k - 1]
      && |b.managers| == k
      && b.outcome == Fail(SetupThrew(faults[Phases[k]]))
  {
    FirstSetupSteps(r, layers, faults);
    if FirstFault(faults) == 1 {
      assert Phases[..2] == [Registering, MiddlewareSetup];
    } else {
      assert Phases[..3] == [Registering, MiddlewareSetup, RoutingSetup];
      assert Layers[..1] == [MiddlewareStack];
    }
  }

  /** With the first two setups passing, the error-handling step runs last. */
  lemma LastStepRuns(r: Registry, layers: seq<Layer>, faults: map<Phase, string>)
    requires r.Valid() && FirstFault(faults) >= 3
    ensures var b := Bootstrapped(r, layers, faults);
      var k := FirstFault(faults);
      && b.entered == Phases
      && b.layers == layers + Layers[..k - 1]
      && |b.managers| == 3
      && (k == 3 ==> b.outcome == Fail(SetupThrew(faults[ErrorHandlingSetup])))
      && (k == 4 ==> b.outcome == Pass && b.layers[|b.layers| - 1] == ErrorHandler)
  {
    FirstSetupSteps(r, layers, faults);
    var middleware := SetupStep(Registered(r, layers), MiddlewareSetup, faults);
    var routing := SetupStep(middleware, RoutingSetup, faults);
    SetupStepOnMarkedToken(routing, ErrorHandlingSetup, faults);
    assert Layers[..2] == [MiddlewareStack, Routes];
    assert Layers[..3] == Layers;
  }

  /**
   * After a successful bootstrap every manager it used is the container's
   * cached singleton, and resolving its token again returns that same object
   * without invoking any factory.
   */
  lemma ManagersAreCachedSingletons(r: Registry, layers: seq<Layer>, faults: map<Phase, string>)
    requires r.Valid()
    ensures var b := Bootstrapped(r, layers, faults);
      b.outcome.Pass? ==>
        && |b.managers| == 3
        && forall i :: 0 <= i < 3 ==>
             var t := Token(Phases[i + 1]);
             && t in b.registry.singletons
             && b.registry.singletons[t] == b.managers[i]
             && b.registry.Resolve(t) == (Success(b.managers[i]), b.registry)
  {
    ManagersMarked(r);
    var registered := Registered(r, layers);
    SetupStepOnMarkedToken(registered, MiddlewareSetup, faults);
    var middleware := SetupStep(registered, MiddlewareSetup, faults);
    if middleware.outcome.Fail? {
      return;
    }
    SetupStepOnMarkedToken(middleware, RoutingSetup, faults);
    var routing := SetupStep(middleware, RoutingSetup, faults);
    if routing.outcome.Fail? {
      return;
    }
    SetupStepOnMarkedToken(routing, ErrorHandlingSetup, faults);
    var b := SetupStep(routing, ErrorHandlingSetup, faults);
    assert b == Bootstrapped(r, layers, faults);
    if b.outcome.Pass? {
      var s := b.registry.singletons;
      assert && s[MiddlewareManagerToken] == b.managers[0]
             && s[RoutingManagerToken] == b.managers[1]
             && s[ErrorHandlingManagerToken] == b.managers[2] by {
        assert s == routing.registry.singletons[ErrorHandlingManagerToken := b.managers[2]];
        assert routing.registry.singletons == middleware.registry.singletons[RoutingManagerToken := b.managers[1]];
        assert middleware.registry.singletons == registered.registry.singletons[MiddlewareManagerToken := b.managers[0]];
        assert ErrorHandlingManagerToken !in {MiddlewareManagerToken, RoutingManagerToken};
        assert MiddlewareManagerToken != RoutingManagerToken;
      }
      CachedManagers(b.registry, b.managers);
    }
  }

  /** Managers cached under the three manager tokens are what resolving those
      tokens returns. */
  lemma CachedManagers(reg: Registry, managers: seq<Instance>)
    requires reg.Valid() && |managers| == 3
    requires MiddlewareManagerToken in reg.singletons && reg.singletons[MiddlewareManagerToken] == managers[0]
    requires RoutingManagerToken in reg.singletons && reg.singletons[RoutingManagerToken] == managers[1]
    requires ErrorHandlingManagerToken in reg.singletons && reg.singletons[ErrorHandlingManagerToken] == managers[2]
    ensures forall i :: 0 <= i < 3 ==>
      var t := Token(Phases[i + 1]);
      && t in reg.singletons
      && reg.singletons[t] == managers[i]
      && reg.Resolve(t) == (Success(managers[i]), reg)
  {
    forall i | 0 <= i < 3
      ensures Token(Phases[i + 1]) in reg.singletons && reg.singletons[Token(Phases[i + 1])] == managers[i]
      ensures reg.Resolve(Token(Phases[i + 1])) == (Success(managers[i]), reg)
    {
      CachedResolveIsIdentical(reg, Token(Phases[i + 1]));
    }
  }

  /** On a fresh container a successful bootstrap invokes each manager factory
      exactly once, in phase order. */
  lemma FreshBootstrapBuildsEachManagerOnce(layers: seq<Layer>, faults: map<Phase, string>)
    requires FirstFault(faults) == 4
    ensures Bootstrapped(Empty(), layers, faults).registry.calls
         == [MiddlewareManagerFactory, RoutingManagerFactory, ErrorHandlingManagerFactory]
  {
    ManagersMarked(Empty());
    var registered := Registered(Empty(), layers);
    assert FirstFault(faults) == 4;
    FreshManagerStep(registered, MiddlewareSetup, faults);
    var middleware := SetupStep(registered, MiddlewareSetup, faults);
    assert RoutingManagerToken != MiddlewareManagerToken;
    FreshManagerStep(middleware, RoutingSetup, faults);
    var routing := SetupStep(middleware, RoutingSetup, faults);
    assert ErrorHandlingManagerToken !in {MiddlewareManagerToken, RoutingManagerToken};
    FreshManagerStep(routing, ErrorHandlingSetup, faults);
  }

  /** A setup step whose manager is marked but not yet built invokes its
      factory once and caches the result. */
  lemma FreshManagerStep(b: Boot, p: Phase, faults: map<Phase, string>)
    requires p != Registering && b.registry.Valid() && b.outcome.Pass? && p !in faults
    requires Token(p) in b.registry.services && Token(p) !in b.registry.singletons
    ensures var b' := SetupStep(b, p, faults);
      && b'.outcome.Pass?
      && b'.registry.calls == b.registry.calls + [b.registry.factories[Token(p)]]
      && b'.registry.services == b.registry.services
      && b'.registry.factories == b.registry.factories
      && b'.registry.singletons.Keys == b.registry.singletons.Keys + {Token(p)}
  {
    FirstResolveBuildsAndCaches(b.registry, Token(p));
  }

  /** The request-handling surface; only the layers installed on it are modelled. */
  class Surface {
    var layers: seq<Layer>

    constructor ()
      ensures layers == []
    {
      layers := [];
    }
  }

  class ApplicationBootstrapper {
    const container: Container

    constructor (container: Container)
      ensures this.container == container
    {
      this.container := container;
    }

    /** Runs the four steps on `app`; the first failure stops the sequence and is
        returned unchanged as the rethrown error. */
    method Bootstrap(app: Surface, faults: map<Phase, string>)
      returns (outcome: Outcome<BootError>, entered: seq<Phase>, managers: seq<Instance>)
      requires container.Valid()
      modifies container, app
      ensures container.Valid()
      ensures Boot(outcome, container.State(), app.layers, entered, managers)
           == Bootstrapped(old(container.State()), old(app.layers), faults)
    {
      RegisterServices();
      entered, managers := [Registering], [];
      outcome, entered, managers := Setup(app, MiddlewareSetup, faults, entered, managers);
      if outcome.Fail? {
        return;
      }
      outcome, entered, managers := Setup(app, RoutingSetup, faults, entered, managers);
      if outcome.Fail? {
        return;
      }
      outcome, entered, managers := Setup(app, ErrorHandlingSetup, faults, entered, managers);
    }

    method RegisterServices()
      requires container.Valid()
      modifies container
      ensures container.Valid() && container.State() == Registration(old(container.State()))
    {
      var registrar := new ServiceRegistrar(container);
      registrar.RegisterAll();
    }

    /** Resolves the manager of phase `p` and runs its setup call on `app`. */
    method Setup(app: Surface, p: Phase, faults: map<Phase, string>, entered: seq<Phase>, managers: seq<Instance>)
      returns (outcome: Outcome<BootError>, entered': seq<Phase>, managers': seq<Instance>)
      requires p != Registering && container.Valid()
      modifies container, app
      ensures container.Valid()
      ensures Boot(outcome, container.State(), app.layers, entered', managers')
           == SetupStep(Boot(Pass, old(container.State()), old(app.layers), entered, managers), p, faults)
    {
      var resolved := container.Resolve(Token(p));
      entered' := entered + [p];
      if resolved.Failure? {
        return Fail(ServiceNotFound(resolved.error)), entered', managers;
      }
      managers' := managers + [resolved.value];
      if p in faults {
        return Fail(SetupThrew(faults[p])), entered', managers';
      }
      app.layers := app.layers + [LayerOf(p)];
      outcome := Pass;
    }
  }
}
