/**
 * The non-generic facade `SystemUnderTest`: a one-way lifecycle (no
 * provider, then a provider once a client is created), three ordered
 * handler lists that the configure methods append to while no provider
 * exists, the internal registry that memoises test doubles, and the build
 * sequence that replays the lists.
 */
module SystemUnderTestBase {
  import opened Types
  import opened DependencyInjection
  import opened TestServices
  import opened AuthenticationSchemes
  import opened SetupFixtures

  /** `CheckClientIsNotCreated`: passes exactly while no provider has been stored. */
  function NotCreatedGuard(provider: Option<ProviderId>): (o: Outcome)
    ensures o == Pass <==> provider.None?
    ensures o.Raise? ==> o.failure == InvalidOperation
  {
    if provider.None? then Pass else Raise(InvalidOperation)
  }

  /** `CheckClientIsCreated`: passes exactly once a provider has been stored. */
  function CreatedGuard(provider: Option<ProviderId>): (o: Outcome)
    ensures o == Pass <==> provider.Some?
    ensures o.Raise? ==> o.failure == InvalidOperation
  {
    if provider.Some? then Pass else Raise(InvalidOperation)
  }

  // ---------------------------------------------------------------------
  // The internal registry of test doubles.
  // ---------------------------------------------------------------------

  /** What `TryAddSingleton` alone builds: one singleton instance per service type. */
  predicate InternalRegistry(s: seq<Descriptor>) {
    && (forall d :: d in s ==> d.implementation.ByInstance? && d.lifetime == Singleton)
    && (forall i, j :: 0 <= i < j < |s| ==> s[i].serviceType != s[j].serviceType)
  }

  /** Resolving from a collection with one more registration of another type resolves as before. */
  lemma GetServiceAppendOther(s: seq<Descriptor>, d: Descriptor, u: Ty)
    requires d.serviceType != u
    ensures GetService(s + [d], u) == GetService(s, u)
  {
    assert (s + [d])[..|s|] == s;
    var p := (e: Descriptor) => e.serviceType == u && e.implementation.ByInstance?;
    assert LastIndex(s + [d], p) == LastIndex(s, p);
  }

  /** In the internal registry, the instance resolved for `t` is the one registered for it. */
  lemma GetServiceOfRegistered(s: seq<Descriptor>, i: nat)
    requires InternalRegistry(s) && i < |s|
    ensures GetService(s, s[i].serviceType) == Some(s[i].implementation.instance)
  {
    var t := s[i].serviceType;
    var p := (e: Descriptor) => e.serviceType == t && e.implementation.ByInstance?;
    assert s[i] in s;
    var k := LastIndex(s, p).value;
    assert s[k] in s;
    assert k == i;
  }

  /**
   * `TryAddSingleton` into the internal registry keeps its shape; afterwards
   * `t` resolves to the instance that was already there, or else to `o`, and
   * every other type resolves as before.
   */
  lemma TryAddSingletonKeepsRegistry(s: seq<Descriptor>, t: Ty, o: Obj)
    requires InternalRegistry(s)
    ensures InternalRegistry(TryAddSingleton(s, t, o))
    ensures GetService(TryAddSingleton(s, t, o), t) ==
      if exists d :: d in s && d.serviceType == t then GetService(s, t) else Some(o)
    ensures GetService(TryAddSingleton(s, t, o), t).Some?
    ensures forall u :: u != t ==> GetService(TryAddSingleton(s, t, o), u) == GetService(s, u)
  {
    if exists d :: d in s && d.serviceType == t {
      var d :| d in s && d.serviceType == t;
      var i :| 0 <= i < |s| && s[i] == d;
      GetServiceOfRegistered(s, i);
    } else {
      var d := InstanceDescriptor(t, o);
      var s' := s + [d];
      assert forall i :: 0 <= i < |s| ==> s'[i] == s[i] && s[i] in s;
      forall u | u != t
        ensures GetService(s', u) == GetService(s, u)
      {
        GetServiceAppendOther(s, d, u);
      }
      GetServiceOfRegistered(s', |s|);
    }
  }

  /** The first instance added for a type is the one every later call gets back. */
  lemma GetOrAddMemoises(s: seq<Descriptor>, t: Ty, first: Obj, later: Obj)
    requires InternalRegistry(s) && forall d :: d in s ==> d.serviceType != t
    ensures GetService(TryAddSingleton(s, t, first), t) == Some(first)
    ensures TryAddSingleton(TryAddSingleton(s, t, first), t, later) == TryAddSingleton(s, t, first)
  {
    TryAddSingletonKeepsRegistry(s, t, first);
    assert InstanceDescriptor(t, first) in TryAddSingleton(s, t, first);
  }

  /**
   * What the type system guarantees of `TryAddSingleton<TService>(instance)`:
   * an instance registered as Mock<T> is a mock of T.
   */
  predicate FitsService(o: Obj, t: Ty) {
    t.MockOf? ==> IsMockOf(o, t.service)
  }

  predicate WellTypedRegistry(s: seq<Descriptor>) {
    forall d :: d in s && d.implementation.ByInstance? ==> FitsService(d.implementation.instance, d.serviceType)
  }

  /** What a well-typed registry resolves for `t` fits `t`. */
  lemma ResolvedFits(s: seq<Descriptor>, t: Ty)
    requires WellTypedRegistry(s) && GetService(s, t).Some?
    ensures FitsService(GetService(s, t).value, t)
  {
    var k := LastIndex(s, (d: Descriptor) => d.serviceType == t && d.implementation.ByInstance?).value;
    assert s[k] in s;
  }

  /**
   * `InternalServiceProvider.GetService<T>() ?? throw new InvalidOperationException(…)`,
   * the lookup behind the getters of every mocking extension: what the
   * internal registry resolves for `t`; InvalidOperation when nothing was
   * kept for `t`.
   */
  function ResolveKept(s: seq<Descriptor>, t: Ty): (r: Result<Obj>)
    requires InternalRegistry(s)
    ensures r.Err? <==> forall d :: d in s ==> d.serviceType != t
    ensures r.Err? ==> r.failure == InvalidOperation
    ensures r.Ok? ==> GetService(s, t) == Some(r.value)
    ensures r.Ok? && WellTypedRegistry(s) ==> FitsService(r.value, t)
  {
    match GetService(s, t)
    case None => Err(InvalidOperation)
    case Some(o) =>
      if WellTypedRegistry(s) then ResolvedFits(s, t); Ok(o) else Ok(o)
  }

  /** Adding an instance that fits its type keeps the registry well typed. */
  lemma TryAddSingletonWellTyped(s: seq<Descriptor>, t: Ty, o: Obj)
    requires WellTypedRegistry(s) && FitsService(o, t)
    ensures WellTypedRegistry(TryAddSingleton(s, t, o))
  {
  }

  // ---------------------------------------------------------------------
  // Resolving services for test actions.
  // ---------------------------------------------------------------------

  /** The arguments `provider.GetService<T1>(), …` resolved for a test action, all from `from`. */
  function ServiceArguments(services: seq<Ty>, from: Provider): (args: seq<Argument>)
    ensures |args| == |services|
    ensures forall i :: 0 <= i < |services| ==> args[i] == ServiceArg(services[i], from)
  {
    seq(|services|, i requires 0 <= i < |services| => ServiceArg(services[i], from))
  }

  /**
   * The arguments of `UsingService<TService1, TService2, TService3>` as
   * written: the first from the scope, the second and third from the root
   * provider.
   */
  function UsingService3ArgumentsAsWritten(t1: Ty, t2: Ty, t3: Ty, p: ProviderId, scope: ScopeId): seq<Argument> {
    [ServiceArg(t1, Scope(p, scope)), ServiceArg(t2, Root(p)), ServiceArg(t3, Root(p))]
  }

  /**
   * Every other `UsingService*` overload resolves all its services from the
   * scope it opens; the three-service one as written resolves the second and
   * third from the root provider instead, so a scoped service reaches the
   * action from a different provider than the first argument.
   */
  lemma UsingService3ResolvesFromRoot(t1: Ty, t2: Ty, t3: Ty, p: ProviderId, scope: ScopeId)
    ensures var asWritten := UsingService3ArgumentsAsWritten(t1, t2, t3, p, scope);
            var intended := ServiceArguments([t1, t2, t3], Scope(p, scope));
      asWritten[0] == intended[0]
      && asWritten[1] != intended[1] && asWritten[1].from == Root(p)
      && asWritten[2] != intended[2] && asWritten[2].from == Root(p)
      && forall a :: a in intended ==> a.from == Scope(p, scope)
  {
  }

  /** What one client creation did: the host mutations applied, the test-service handlers invoked, the fixture calls made. */
  datatype BuildTrace = BuildTrace(hostMutations: seq<HostMutation>, replayed: nat, fixtureCalls: seq<Call>)

  class SystemUnderTest {
    /** `ServiceProvider`: None until a client has been created. */
    var serviceProvider: Option<ProviderId>
    /** `_serviceCollection`: the test-service collection captured at build. */
    var serviceCollection: Option<seq<Descriptor>>
    var internalServiceCollection: seq<Descriptor>
    /** The handlers of the three events, in subscription order. */
    var onSetupFixtures: seq<Fixture>
    var onConfigureTestServices: seq<ServiceMutation>
    var onConfigureWebHostBuilder: seq<HostMutation>

    ghost predicate Valid()
      reads this
    {
      && (serviceProvider.Some? ==> serviceCollection.Some?)
      && InternalRegistry(internalServiceCollection)
      && WellTypedRegistry(internalServiceCollection)
    }

    constructor()
      ensures Valid()
      ensures serviceProvider == None && serviceCollection == None && internalServiceCollection == []
      ensures onSetupFixtures == [] && onConfigureTestServices == [] && onConfigureWebHostBuilder == []
    {
      serviceProvider := None;
      serviceCollection := None;
      internalServiceCollection := [];
      onSetupFixtures := [];
      onConfigureTestServices := [];
      onConfigureWebHostBuilder := [];
    }

    /**
     * A guarded configure call: it raised InvalidOperationException and
     * changed nothing once a provider existed, and otherwise appended `m` to
     * the test-service handlers and changed nothing else.
     */
    twostate predicate TestServiceAppended(m: ServiceMutation, o: Outcome)
      reads this
    {
      && o == NotCreatedGuard(old(serviceProvider))
      && onConfigureTestServices == (if o == Pass then old(onConfigureTestServices) + [m] else old(onConfigureTestServices))
      && serviceProvider == old(serviceProvider) && serviceCollection == old(serviceCollection)
      && internalServiceCollection == old(internalServiceCollection)
      && onSetupFixtures == old(onSetupFixtures) && onConfigureWebHostBuilder == old(onConfigureWebHostBuilder)
    }

    /** The same for the host-builder handlers; an unguarded call always appends. */
    twostate predicate HostMutationAppended(m: HostMutation, o: Outcome, guarded: bool)
      reads this
    {
      && o == (if guarded then NotCreatedGuard(old(serviceProvider)) else Pass)
      && onConfigureWebHostBuilder == (if o == Pass then old(onConfigureWebHostBuilder) + [m] else old(onConfigureWebHostBuilder))
      && serviceProvider == old(serviceProvider) && serviceCollection == old(serviceCollection)
      && internalServiceCollection == old(internalServiceCollection)
      && onSetupFixtures == old(onSetupFixtures) && onConfigureTestServices == old(onConfigureTestServices)
    }

    /** `CheckClientIsNotCreatedAndConfigureServices`: the guard, then one more test-service handler. */
    method ConfigureTestServices(m: ServiceMutation) returns (o: Outcome)
      requires Valid()
      modifies this
      ensures Valid()
      ensures TestServiceAppended(m, o)
    {
      o := NotCreatedGuard(serviceProvider);
      if o == Pass {
        onConfigureTestServices := onConfigureTestServices + [m];
      }
    }

    /** `CheckClientIsNotCreated` with a host-builder handler: the guard, then one more handler. */
    method ConfigureHost(m: HostMutation) returns (o: Outcome)
      requires Valid()
      modifies this
      ensures Valid()
      ensures HostMutationAppended(m, o, true)
    {
      o := NotCreatedGuard(serviceProvider);
      if o == Pass {
        onConfigureWebHostBuilder := onConfigureWebHostBuilder + [m];
      }
    }

    /** `ReplaceService<TService, TImplementation>(lifetime)`. */
    method ReplaceService(service: Ty, implementation: Ty, lifetime: Option<Lifetime>) returns (o: Outcome)
      requires Valid()
      modifies this
      ensures Valid()
      ensures TestServiceAppended(ReplaceWithType(service, implementation, lifetime), o)
    {
      o := ConfigureTestServices(ReplaceWithType(service, implementation, lifetime));
    }

    /** `ReplaceService<TService>(obj)`: `obj` becomes a singleton instance registration. */
    method ReplaceServiceWith(service: Ty, obj: Obj) returns (o: Outcome)
      requires Valid()
      modifies this
      ensures Valid()
      ensures TestServiceAppended(ReplaceWithInstance(service, obj), o)
    {
      o := ConfigureTestServices(ReplaceWithInstance(service, obj));
    }

    /** `ReplaceLoggerFactory(...)`: both overloads replace ILoggerFactory with the factory they create. */
    method ReplaceLoggerFactory(factory: Obj) returns (o: Outcome)
      requires Valid()
      modifies this
      ensures Valid()
      ensures TestServiceAppended(ReplaceWithInstance(LoggerFactoryService, factory), o)
    {
      o := NotCreatedGuard(serviceProvider);
      if o == Pass {
        o := ReplaceServiceWith(LoggerFactoryService, factory);
      }
    }

    /** `ReplaceDistributedInMemoryCache(options)`: guarded only through ReplaceService. */
    method ReplaceDistributedInMemoryCache(cache: Obj) returns (o: Outcome)
      requires Valid()
      modifies this
      ensures Valid()
      ensures TestServiceAppended(ReplaceWithInstance(DistributedCacheService, cache), o)
    {
      o := ReplaceServiceWith(DistributedCacheService, cache);
    }

    /** `ReplaceConfigureOptions<TOptions>(configurer)`. */
    method ReplaceConfigureOptions(options: Ty, configurer: nat) returns (o: Outcome)
      requires Valid()
      modifies this
      ensures Valid()
      ensures TestServiceAppended(ServiceMutation.ReplaceConfigureOptions(options, configurer), o)
    {
      o := ConfigureTestServices(ServiceMutation.ReplaceConfigureOptions(options, configurer));
    }

    /** `RemoveAll<TService>()` and `RemoveAll(serviceType)`. */
    method RemoveAll(serviceType: Ty) returns (o: Outcome)
      requires Valid()
      modifies this
      ensures Valid()
      ensures TestServiceAppended(RemoveAllOfType(serviceType), o)
    {
      o := ConfigureTestServices(RemoveAllOfType(serviceType));
    }

    /** `Remove<TService, TImplementation>()` and `Remove(serviceType, implementationType)`. */
    method Remove(service: Ty, implementation: Ty) returns (o: Outcome)
      requires Valid()
      modifies this
      ensures Valid()
      ensures TestServiceAppended(RemoveImplementation(service, implementation), o)
    {
      o := ConfigureTestServices(RemoveImplementation(service, implementation));
    }

    method RemoveAllBy(condition: Descriptor -> bool) returns (o: Outcome)
      requires Valid()
      modifies this
      ensures Valid()
      ensures TestServiceAppended(ServiceMutation.RemoveAllBy(condition), o)
    {
      o := ConfigureTestServices(ServiceMutation.RemoveAllBy(condition));
    }

    method RemoveSingleBy(condition: Descriptor -> bool) returns (o: Outcome)
      requires Valid()
      modifies this
      ensures Valid()
      ensures TestServiceAppended(ServiceMutation.RemoveSingleBy(condition), o)
    {
      o := ConfigureTestServices(ServiceMutation.RemoveSingleBy(condition));
    }

    /** `DisableStartupFilters()`: removes every IStartupFilter registration. */
    method DisableStartupFilters() returns (o: Outcome)
      requires Valid()
      modifies this
      ensures Valid()
      ensures TestServiceAppended(RemoveAllOfType(StartupFilter), o)
    {
      o := ConfigureTestServices(RemoveAllOfType(StartupFilter));
    }

    /** `DisableStartupFilter<TImplementationFilter>()`. */
    method DisableStartupFilter(filter: Ty) returns (o: Outcome)
      requires Valid()
      modifies this
      ensures Valid()
      ensures TestServiceAppended(ServiceMutation.DisableStartupFilter(filter), o)
    {
      o := ConfigureTestServices(ServiceMutation.DisableStartupFilter(filter));
    }

    /** `ReplaceNamedConfigureOptions<TOptions>(name, configurer)`. */
    method ReplaceNamedConfigureOptions(options: Ty, name: string, configurer: nat) returns (o: Outcome)
      requires Valid()
      modifies this
      ensures Valid()
      ensures TestServiceAppended(ServiceMutation.ReplaceNamedConfigureOptions(options, name, configurer), o)
    {
      o := ConfigureTestServices(ServiceMutation.ReplaceNamedConfigureOptions(options, name, configurer));
    }

    /** `DisableOptionValidations<TOptions>()`: removes every IValidateOptions<TOptions> registration. */
    method DisableOptionValidations(options: Ty) returns (o: Outcome)
      requires Valid()
      modifies this
      ensures Valid()
      ensures TestServiceAppended(RemoveAllOfType(ValidateOptionsOf(options)), o)
    {
      o := ConfigureTestServices(RemoveAllOfType(ValidateOptionsOf(options)));
    }

    /** `DisableOptionDataAnnotationValidation<TOptions>()`. */
    method DisableOptionDataAnnotationValidation(options: Ty) returns (o: Outcome)
      requires Valid()
      modifies this
      ensures Valid()
      ensures TestServiceAppended(ServiceMutation.DisableOptionDataAnnotationValidation(options), o)
    {
      o := ConfigureTestServices(ServiceMutation.DisableOptionDataAnnotationValidation(options));
    }

    /**
     * One get-or-add of a test double under `key`: `created` is kept only
     * when nothing was registered for `key`, and `r` is what `key` resolves
     * to afterwards, which is the first instance ever added for it.
     */
    twostate predicate GotOrAdded(key: Ty, created: Obj, r: Obj)
      reads this
    {
      && internalServiceCollection == TryAddSingleton(old(internalServiceCollection), key, created)
      && GetService(internalServiceCollection, key) == Some(r)
      && ((exists d :: d in old(internalServiceCollection) && d.serviceType == key) ==>
            Some(r) == GetService(old(internalServiceCollection), key))
      && ((forall d :: d in old(internalServiceCollection) ==> d.serviceType != key) ==> r == created)
    }

    /**
     * A test double got-or-added under `key` and the replacement `m` built
     * from it appended to the test-service handlers; nothing else changes.
     */
    twostate predicate ReplacedByDouble(key: Ty, created: Obj, double: Obj, m: ServiceMutation)
      reads this
    {
      && GotOrAdded(key, created, double)
      && onConfigureTestServices == old(onConfigureTestServices) + [m]
      && serviceProvider == old(serviceProvider) && serviceCollection == old(serviceCollection)
      && onSetupFixtures == old(onSetupFixtures) && onConfigureWebHostBuilder == old(onConfigureWebHostBuilder)
    }

    /**
     * `GetOrAddInternalService<TService>(factory)`: the factory has already
     * produced `created`; it is kept only when `t` has no instance yet, and
     * the call returns the instance registered for `t`, which is the first
     * one ever added.
     */
    method GetOrAddInternalService(t: Ty, created: Obj) returns (r: Obj)
      requires Valid() && FitsService(created, t)
      modifies this
      ensures Valid()
      ensures FitsService(r, t)
      ensures internalServiceCollection == TryAddSingleton(old(internalServiceCollection), t, created)
      ensures GetService(internalServiceCollection, t) == Some(r)
      ensures (exists d :: d in old(internalServiceCollection) && d.serviceType == t) ==>
                Some(r) == GetService(old(internalServiceCollection), t)
      ensures (forall d :: d in old(internalServiceCollection) ==> d.serviceType != t) ==> r == created
      ensures serviceProvider == old(serviceProvider) && serviceCollection == old(serviceCollection)
      ensures onSetupFixtures == old(onSetupFixtures) && onConfigureTestServices == old(onConfigureTestServices)
      ensures onConfigureWebHostBuilder == old(onConfigureWebHostBuilder)
    {
      TryAddSingletonKeepsRegistry(internalServiceCollection, t, created);
      TryAddSingletonWellTyped(internalServiceCollection, t, created);
      internalServiceCollection := TryAddSingleton(internalServiceCollection, t, created);
      r := GetService(internalServiceCollection, t).value;
      ResolvedFits(internalServiceCollection, t);
    }

    /** `SetupFixture<TService>(action)`: the guard, then one more fixture handler. */
    method SetupFixture(serviceType: Ty, action: nat) returns (o: Outcome)
      requires Valid()
      modifies this
      ensures Valid()
      ensures o == NotCreatedGuard(old(serviceProvider))
      ensures onSetupFixtures == if o == Pass then old(onSetupFixtures) + [Fixture(serviceType, action)] else old(onSetupFixtures)
      ensures serviceProvider == old(serviceProvider) && serviceCollection == old(serviceCollection)
      ensures internalServiceCollection == old(internalServiceCollection)
      ensures onConfigureTestServices == old(onConfigureTestServices) && onConfigureWebHostBuilder == old(onConfigureWebHostBuilder)
    {
      o := NotCreatedGuard(serviceProvider);
      if o == Pass {
        onSetupFixtures := onSetupFixtures + [Fixture(serviceType, action)];
      }
    }

    // -------------------------------------------------------------------
    // Host-builder handlers.
    // -------------------------------------------------------------------

    method SetupWebHostBuilder(action: nat) returns (o: Outcome)
      requires Valid()
      modifies this
      ensures Valid()
      ensures HostMutationAppended(HostMutation.SetupWebHostBuilder(action), o, true)
    {
      o := ConfigureHost(HostMutation.SetupWebHostBuilder(action));
    }

    method UseEnvironment(environment: string) returns (o: Outcome)
      requires Valid()
      modifies this
      ensures Valid()
      ensures HostMutationAppended(HostMutation.UseEnvironment(environment), o, true)
    {
      o := ConfigureHost(HostMutation.UseEnvironment(environment));
    }

    /** `UseProductionEnvironment()`: the environment named by `Environments.Production`. */
    method UseProductionEnvironment() returns (o: Outcome)
      requires Valid()
      modifies this
      ensures Valid()
      ensures HostMutationAppended(HostMutation.UseEnvironment("Production"), o, true)
    {
      o := ConfigureHost(HostMutation.UseEnvironment("Production"));
    }

    method UseStagingEnvironment() returns (o: Outcome)
      requires Valid()
      modifies this
      ensures Valid()
      ensures HostMutationAppended(HostMutation.UseEnvironment("Staging"), o, true)
    {
      o := ConfigureHost(HostMutation.UseEnvironment("Staging"));
    }

    method UseDevelopmentEnvironment() returns (o: Outcome)
      requires Valid()
      modifies this
      ensures Valid()
      ensures HostMutationAppended(HostMutation.UseEnvironment("Development"), o, true)
    {
      o := ConfigureHost(HostMutation.UseEnvironment("Development"));
    }

    method UseSetting(key: string, value: string) returns (o: Outcome)
      requires Valid()
      modifies this
      ensures Valid()
      ensures HostMutationAppended(HostMutation.UseSetting(key, value), o, true)
    {
      o := ConfigureHost(HostMutation.UseSetting(key, value));
    }

    method ConfigureAppConfiguration(source: ConfigurationSource) returns (o: Outcome)
      requires Valid()
      modifies this
      ensures Valid()
      ensures HostMutationAppended(HostMutation.ConfigureAppConfiguration(source), o, true)
    {
      o := ConfigureHost(HostMutation.ConfigureAppConfiguration(source));
    }

    /** `OverrideAppConfiguration<T>(options)` and the `dynamic` overload: the options serialised to a JSON source. */
    method OverrideAppConfigurationWithObject(options: nat) returns (o: Outcome)
      requires Valid()
      modifies this
      ensures Valid()
      ensures HostMutationAppended(HostMutation.ConfigureAppConfiguration(JsonObject(options)), o, true)
    {
      o := NotCreatedGuard(serviceProvider);
      if o == Pass {
        o := ConfigureAppConfiguration(JsonObject(options));
      }
    }

    /** `OverrideAppConfiguration(configurationPath, value)`: a one-pair in-memory source. */
    method OverrideAppConfigurationAt(configurationPath: string, value: string) returns (o: Outcome)
      requires Valid()
      modifies this
      ensures Valid()
      ensures HostMutationAppended(HostMutation.ConfigureAppConfiguration(InMemoryPairs([(configurationPath, value)])), o, true)
    {
      o := NotCreatedGuard(serviceProvider);
      if o == Pass {
        o := ConfigureAppConfiguration(InMemoryPairs([(configurationPath, value)]));
      }
    }

    /** `OverrideAppConfiguration(collection)`: an in-memory source of the given pairs. */
    method OverrideAppConfigurationWith(collection: seq<(string, string)>) returns (o: Outcome)
      requires Valid()
      modifies this
      ensures Valid()
      ensures HostMutationAppended(HostMutation.ConfigureAppConfiguration(InMemoryPairs(collection)), o, true)
    {
      o := NotCreatedGuard(serviceProvider);
      if o == Pass {
        o := ConfigureAppConfiguration(InMemoryPairs(collection));
      }
    }

    /** `ConfigureServices(configureServices)`: the one configure method without a guard. */
    method ConfigureServices(action: nat) returns (o: Outcome)
      requires Valid()
      modifies this
      ensures Valid()
      ensures HostMutationAppended(HostMutation.ConfigureServices(action), o, false)
    {
      onConfigureWebHostBuilder := onConfigureWebHostBuilder + [HostMutation.ConfigureServices(action)];
      o := Pass;
    }

    // -------------------------------------------------------------------
    // Using services once a client exists.
    // -------------------------------------------------------------------

    /** `UsingService(action)` and `UsingServiceAsync(action)`: the action gets the scope's provider. */
    method UsingServiceProvider(action: nat, scope: ScopeId, run: Call -> TaskStatus) returns (c: Option<Call>, o: Outcome)
      ensures serviceProvider.None? ==> c == None && o == Raise(InvalidOperation)
      ensures serviceProvider.Some? ==>
        c == Some(Call(action, [ProviderArg(Scope(serviceProvider.value, scope))])) && o == ActionOutcome(run(c.value))
    {
      o := CreatedGuard(serviceProvider);
      if o == Pass {
        var call := Call(action, [ProviderArg(Scope(serviceProvider.value, scope))]);
        c := Some(call);
        o := ActionOutcome(run(call));
      } else {
        c := None;
      }
    }

    /**
     * `UsingService<T1[, T2[, T3]]>(action)` and their async forms: the guard,
     * then one scope from which every service is resolved (the three-service
     * overload as it is evidently meant; see UsingService3ArgumentsAsWritten).
     */
    method UsingService(action: nat, services: seq<Ty>, scope: ScopeId, run: Call -> TaskStatus) returns (c: Option<Call>, o: Outcome)
      requires 1 <= |services| <= 3
      ensures serviceProvider.None? ==> c == None && o == Raise(InvalidOperation)
      ensures serviceProvider.Some? ==>
        c.Some? && c.value.action == action && |c.value.arguments| == |services|
        && (forall i :: 0 <= i < |services| ==> c.value.arguments[i] == ServiceArg(services[i], Scope(serviceProvider.value, scope)))
        && o == ActionOutcome(run(c.value))
    {
      o := CreatedGuard(serviceProvider);
      if o == Pass {
        var call := Call(action, ServiceArguments(services, Scope(serviceProvider.value, scope)));
        c := Some(call);
        o := ActionOutcome(run(call));
      } else {
        c := None;
      }
    }

    // -------------------------------------------------------------------
    // The build sequence.
    // -------------------------------------------------------------------

    /**
     * `ConfigureWebHostBuilder(builder)`: the host-builder handlers in
     * order, then, when the host configures its test services, the
     * test-service handlers in order; the collection is captured only when
     * they all returned.
     */
    method ConfigureWebHostBuilder(st: BuildState) returns (hostApplied: seq<HostMutation>, r: Result<BuildState>)
      requires Valid()
      modifies this
      ensures Valid()
      ensures hostApplied == old(onConfigureWebHostBuilder)
      ensures r == ApplyAll(st, old(onConfigureTestServices))
      ensures serviceCollection == if r.Ok? then Some(r.value.services) else old(serviceCollection)
      ensures serviceProvider == old(serviceProvider) && internalServiceCollection == old(internalServiceCollection)
      ensures onSetupFixtures == old(onSetupFixtures) && onConfigureTestServices == old(onConfigureTestServices)
      ensures onConfigureWebHostBuilder == old(onConfigureWebHostBuilder)
    {
      hostApplied := onConfigureWebHostBuilder;
      r := Replay(st, onConfigureTestServices);
      if r.Ok? {
        serviceCollection := Some(r.value.services);
      }
    }

    /**
     * `ExecuteSetupFixture()` as written: without a provider `CreateScope`
     * rejects the null provider with ArgumentNullException; without fixtures the handler sequence is null and
     * `Task.WhenAll` raises ArgumentNullException; otherwise every fixture
     * gets its service from one scope and all tasks are waited on.
     */
    method ExecuteSetupFixtureAsWritten(scope: ScopeId, run: Call -> TaskStatus) returns (made: seq<Call>, o: Outcome)
      ensures serviceProvider.None? ==> made == [] && o == Raise(ArgumentNull)
      ensures serviceProvider.Some? ==>
        var calls := FixtureCalls(onSetupFixtures, Scope(serviceProvider.value, scope));
        o == ExecuteSetupFixtureOutcome(onSetupFixtures, Scope(serviceProvider.value, scope), run)
        && made == if onSetupFixtures == [] then [] else Invoked(calls, run)
    {
      if serviceProvider.None? {
        return [], Raise(ArgumentNull);
      }
      if onSetupFixtures == [] {
        return [], Raise(ArgumentNull);
      }
      made, o := WhenAll(FixtureCalls(onSetupFixtures, Scope(serviceProvider.value, scope)), run);
    }

    /**
     * `ExecuteSetupFixture()` as evidently intended: with no fixture there
     * is nothing to wait on and it passes; otherwise as written.
     */
    method ExecuteSetupFixture(scope: ScopeId, run: Call -> TaskStatus) returns (made: seq<Call>, o: Outcome)
      ensures serviceProvider.None? ==> made == [] && o == Raise(ArgumentNull)
      ensures serviceProvider.Some? ==>
        var calls := FixtureCalls(onSetupFixtures, Scope(serviceProvider.value, scope));
        made == Invoked(calls, run) && o == WhenAllOutcome(calls, run)
      ensures serviceProvider.Some? && onSetupFixtures == [] ==> made == [] && o == Pass
    {
      if serviceProvider.None? {
        return [], Raise(ArgumentNull);
      }
      made, o := WhenAll(FixtureCalls(onSetupFixtures, Scope(serviceProvider.value, scope)), run);
    }

    /**
     * Creating the first client: the host is configured (host-builder
     * handlers, then the test-service handlers over the application's
     * registrations), the collection is captured, the provider is stored and
     * the fixtures run against one scope. A replay that raises leaves the
     * facade as it was. Later clients come from the host already built.
     */
    method CreateClient(appServices: seq<Descriptor>, authentication: AuthenticationOptions,
                        provider: ProviderId, scope: ScopeId, run: Call -> TaskStatus)
      returns (trace: BuildTrace, o: Outcome)
      requires Valid()
      modifies this
      ensures Valid()
      ensures onSetupFixtures == old(onSetupFixtures) && onConfigureTestServices == old(onConfigureTestServices)
      ensures onConfigureWebHostBuilder == old(onConfigureWebHostBuilder)
      ensures internalServiceCollection == old(internalServiceCollection)
      ensures old(serviceProvider).Some? ==>
        o == Pass && trace == BuildTrace([], 0, [])
        && serviceProvider == old(serviceProvider) && serviceCollection == old(serviceCollection)
      ensures old(serviceProvider).None? ==>
        var st := BuildState(appServices, authentication);
        var replay := ApplyAll(st, onConfigureTestServices);
        var calls := FixtureCalls(onSetupFixtures, Scope(provider, scope));
        trace.hostMutations == onConfigureWebHostBuilder
        && trace.replayed == ReplayedCount(st, onConfigureTestServices)
        && (replay.Err? ==>
              o == Raise(replay.failure) && trace.fixtureCalls == []
              && serviceProvider == None && serviceCollection == old(serviceCollection))
        && (replay.Ok? ==>
              serviceProvider == Some(provider) && serviceCollection == Some(replay.value.services)
              && trace.fixtureCalls == Invoked(calls, run) && o == WhenAllOutcome(calls, run))
    {
      if serviceProvider.Some? {
        return BuildTrace([], 0, []), Pass;
      }
      var st := BuildState(appServices, authentication);
      var hostApplied, replay := ConfigureWebHostBuilder(st);
      var replayed := ReplayedCount(st, onConfigureTestServices);
      if replay.Err? {
        return BuildTrace(hostApplied, replayed, []), Raise(replay.failure);
      }
      serviceProvider := Some(provider);
      var made;
      made, o := ExecuteSetupFixture(scope, run);
      trace := BuildTrace(hostApplied, replayed, made);
    }
  }
}
