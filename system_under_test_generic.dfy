/**
 * The generic facade revision `SystemUnderTest<TStartup>`: the same guards
 * over a provider field, two handler lists, and a build that runs on every
 * client creation, because each one configures a fresh host.
 */
module SystemUnderTestGeneric {
  import opened Types
  import opened DependencyInjection
  import opened ServiceCollectionHelper
  import opened TestServices
  import opened AuthenticationSchemes
  import opened SetupFixtures
  import opened SystemUnderTestBase

  class SystemUnderTest {
    var serviceCollection: Option<seq<Descriptor>>
    var serviceProvider: Option<ProviderId>
    var onSetupFixtures: seq<Fixture>
    var onConfigureTestServices: seq<ServiceMutation>

    /** The provider and the captured collection are stored together. */
    ghost predicate Valid()
      reads this
    {
      serviceProvider.Some? <==> serviceCollection.Some?
    }

    constructor()
      ensures Valid()
      ensures serviceCollection == None && serviceProvider == None
      ensures onSetupFixtures == [] && onConfigureTestServices == []
    {
      serviceCollection := None;
      serviceProvider := None;
      onSetupFixtures := [];
      onConfigureTestServices := [];
    }

    /** A guarded configure call: refused once a provider exists, otherwise `m` appended and nothing else changed. */
    twostate predicate TestServiceAppended(m: ServiceMutation, o: Outcome)
      reads this
    {
      && o == NotCreatedGuard(old(serviceProvider))
      && onConfigureTestServices == (if o == Pass then old(onConfigureTestServices) + [m] else old(onConfigureTestServices))
      && serviceProvider == old(serviceProvider) && serviceCollection == old(serviceCollection)
      && onSetupFixtures == old(onSetupFixtures)
    }

    /** `ReplaceService<TService, TImplementation>(lifetime)`. */
    method ReplaceService(service: Ty, implementation: Ty, lifetime: Option<Lifetime>) returns (o: Outcome)
      requires Valid()
      modifies this
      ensures Valid()
      ensures TestServiceAppended(ReplaceWithType(service, implementation, lifetime), o)
    {
      o := NotCreatedGuard(serviceProvider);
      if o == Pass {
        onConfigureTestServices := onConfigureTestServices + [ReplaceWithType(service, implementation, lifetime)];
      }
    }

    /** `ReplaceService<TService>(obj)`: a singleton registration whose factory returns `obj`. */
    method ReplaceServiceWith(service: Ty, obj: Obj) returns (o: Outcome)
      requires Valid()
      modifies this
      ensures Valid()
      ensures TestServiceAppended(ReplaceWithObjectFactory(service, obj), o)
    {
      o := NotCreatedGuard(serviceProvider);
      if o == Pass {
        onConfigureTestServices := onConfigureTestServices + [ReplaceWithObjectFactory(service, obj)];
      }
    }

    /**
     * `MockService<TService>(out mock)`: `created` is the mock this call makes,
     * never one of an earlier call; its object replaces TService.
     */
    method MockService(service: Ty, created: Obj) returns (mock: Option<Obj>, o: Outcome)
      requires Valid() && IsMockOf(created, service)
      modifies this
      ensures Valid()
      ensures TestServiceAppended(ReplaceWithObjectFactory(service, MockedObject(created)), o)
      ensures mock == if o == Pass then Some(created) else None
    {
      o := NotCreatedGuard(serviceProvider);
      if o != Pass {
        return None, o;
      }
      mock := Some(created);
      o := ReplaceServiceWith(service, MockedObject(created));
    }

    /** `SetupFixture<TService>(action)`. */
    method SetupFixture(serviceType: Ty, action: nat) returns (o: Outcome)
      requires Valid()
      modifies this
      ensures Valid()
      ensures o == NotCreatedGuard(old(serviceProvider))
      ensures onSetupFixtures == if o == Pass then old(onSetupFixtures) + [Fixture(serviceType, action)] else old(onSetupFixtures)
      ensures serviceProvider == old(serviceProvider) && serviceCollection == old(serviceCollection)
      ensures onConfigureTestServices == old(onConfigureTestServices)
    {
      o := NotCreatedGuard(serviceProvider);
      if o == Pass {
        onSetupFixtures := onSetupFixtures + [Fixture(serviceType, action)];
      }
    }

    /** `UsingService(action)` and `UsingServiceAsync(action)`: the action gets the root provider itself. */
    method UsingServiceProvider(action: nat, run: Call -> TaskStatus) returns (c: Option<Call>, o: Outcome)
      ensures serviceProvider.None? ==> c == None && o == Raise(InvalidOperation)
      ensures serviceProvider.Some? ==>
        c == Some(Call(action, [ProviderArg(Root(serviceProvider.value))])) && o == ActionOutcome(run(c.value))
    {
      o := CreatedGuard(serviceProvider);
      if o == Pass {
        var call := Call(action, [ProviderArg(Root(serviceProvider.value))]);
        c := Some(call);
        o := ActionOutcome(run(call));
      } else {
        c := None;
      }
    }

    /**
     * `UsingService<T1[, T2[, T3]]>(action)` and their async forms: a scope
     * is opened but unused; every service comes from the root provider.
     */
    method UsingService(action: nat, services: seq<Ty>, run: Call -> TaskStatus) returns (c: Option<Call>, o: Outcome)
      requires 1 <= |services| <= 3
      ensures serviceProvider.None? ==> c == None && o == Raise(InvalidOperation)
      ensures serviceProvider.Some? ==>
        c.Some? && c.value.action == action && |c.value.arguments| == |services|
        && (forall i :: 0 <= i < |services| ==> c.value.arguments[i] == ServiceArg(services[i], Root(serviceProvider.value)))
        && o == ActionOutcome(run(c.value))
    {
      o := CreatedGuard(serviceProvider);
      if o == Pass {
        var call := Call(action, ServiceArguments(services, Root(serviceProvider.value)));
        c := Some(call);
        o := ActionOutcome(run(call));
      } else {
        c := None;
      }
    }

    /**
     * `CreateClient(...)` through `WithWebHostBuilder()`: every creation
     * configures a fresh host, so the test-service handlers are replayed
     * over the application's registrations each time; when they all
     * return, the collection is captured, a provider built from it is
     * stored, and every fixture gets its service from that provider. The
     * fixtures' tasks are all waited on (see InvokeAndWaitLast for the wait
     * as written).
     */
    method CreateClient(appServices: seq<Descriptor>, authentication: AuthenticationOptions, provider: ProviderId, run: Call -> TaskStatus)
      returns (replayed: nat, fixtureCalls: seq<Call>, o: Outcome)
      requires Valid()
      modifies this
      ensures Valid()
      ensures onSetupFixtures == old(onSetupFixtures) && onConfigureTestServices == old(onConfigureTestServices)
      ensures var st := BuildState(appServices, authentication);
              var replay := ApplyAll(st, onConfigureTestServices);
              var calls := FixtureCalls(onSetupFixtures, Root(provider));
        replayed == ReplayedCount(st, onConfigureTestServices)
        && (replay.Err? ==>
              o == Raise(replay.failure) && fixtureCalls == []
              && serviceProvider == old(serviceProvider) && serviceCollection == old(serviceCollection))
        && (replay.Ok? ==>
              serviceCollection == Some(replay.value.services) && serviceProvider == Some(provider)
              && fixtureCalls == Invoked(calls, run) && o == WhenAllOutcome(calls, run))
    {
      var st := BuildState(appServices, authentication);
      var replay := Replay(st, onConfigureTestServices);
      replayed := ReplayedCount(st, onConfigureTestServices);
      if replay.Err? {
        return replayed, [], Raise(replay.failure);
      }
      serviceCollection := Some(replay.value.services);
      serviceProvider := Some(provider);
      fixtureCalls, o := WhenAll(FixtureCalls(onSetupFixtures, Root(provider)), run);
    }

    /**
     * `VerifyRegisteredLifeTimeOfService<TService>(lifetime)`: whether the
     * first registration of the service has that lifetime; InvalidOperation
     * before a collection was captured or when the service is not registered.
     */
    method VerifyRegisteredLifeTimeOfService(serviceType: Ty, lifetime: Lifetime) returns (r: Result<bool>)
      ensures serviceCollection.None? ==> r == Err(InvalidOperation)
      ensures serviceCollection.Some? ==>
        (r.Err? <==> forall d :: d in serviceCollection.value ==> d.serviceType != serviceType)
        && (r.Err? ==> r.failure == InvalidOperation)
        && (r.Ok? ==> exists i :: 0 <= i < |serviceCollection.value|
                        && serviceCollection.value[i].serviceType == serviceType
                        && (forall j :: 0 <= j < i ==> serviceCollection.value[j].serviceType != serviceType)
                        && r.value == (serviceCollection.value[i].lifetime == lifetime))
    {
      if serviceCollection.None? {
        return Err(InvalidOperation);
      }
      var found := FindServiceDescriptor(serviceCollection.value, serviceType);
      if found.Err? {
        return Err(found.failure);
      }
      r := Ok(found.value.lifetime == lifetime);
    }
  }
}
