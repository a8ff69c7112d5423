/**
 * The earliest facade, `EasyIntergrationTester<TStartup>`: guarded
 * test-service registration, an UNGUARDED fixture registration, no captured
 * collection, and a build on every client creation.
 */
module EasyIntergrationTester {
  import opened Types
  import opened DependencyInjection
  import opened TestServices
  import opened AuthenticationSchemes
  import opened SetupFixtures
  import opened SystemUnderTestBase

  class Tester {
    var serviceProvider: Option<ProviderId>
    var onSetupFixtures: seq<Fixture>
    var onConfigureTestServices: seq<ServiceMutation>

    constructor()
      ensures serviceProvider == None && onSetupFixtures == [] && onConfigureTestServices == []
    {
      serviceProvider := None;
      onSetupFixtures := [];
      onConfigureTestServices := [];
    }

    /** A guarded configure call: refused once a provider exists, otherwise `m` appended and nothing else changed. */
    twostate predicate TestServiceAppended(m: ServiceMutation, o: Outcome)
      reads this
    {
      && o == NotCreatedGuard(old(serviceProvider))
      && onConfigureTestServices == (if o == Pass then old(onConfigureTestServices) + [m] else old(onConfigureTestServices))
      && serviceProvider == old(serviceProvider) && onSetupFixtures == old(onSetupFixtures)
    }

    /** `WithReplaceService<TService, TImplementation>(lifetime)`. */
    method WithReplaceService(service: Ty, implementation: Ty, lifetime: Option<Lifetime>) returns (o: Outcome)
      modifies this
      ensures TestServiceAppended(ReplaceWithType(service, implementation, lifetime), o)
    {
      o := NotCreatedGuard(serviceProvider);
      if o == Pass {
        onConfigureTestServices := onConfigureTestServices + [ReplaceWithType(service, implementation, lifetime)];
      }
    }

    /** `WithReplaceService<TService>(obj)`: a singleton registration whose factory returns `obj`. */
    method WithReplaceServiceWith(service: Ty, obj: Obj) returns (o: Outcome)
      modifies this
      ensures TestServiceAppended(ReplaceWithObjectFactory(service, obj), o)
    {
      o := NotCreatedGuard(serviceProvider);
      if o == Pass {
        onConfigureTestServices := onConfigureTestServices + [ReplaceWithObjectFactory(service, obj)];
      }
    }

    /** `WithMockService<TService>(out mock)`: a mock made by this call replaces TService. */
    method WithMockService(service: Ty, created: Obj) returns (mock: Option<Obj>, o: Outcome)
      requires IsMockOf(created, service)
      modifies this
      ensures TestServiceAppended(ReplaceWithObjectFactory(service, MockedObject(created)), o)
      ensures mock == if o == Pass then Some(created) else None
    {
      o := NotCreatedGuard(serviceProvider);
      if o != Pass {
        return None, o;
      }
      mock := Some(created);
      o := WithReplaceServiceWith(service, MockedObject(created));
    }

    /** `WithSetupFixture<TService>(action)`: accepted in every state, even after a client exists. */
    method WithSetupFixture(serviceType: Ty, action: nat)
      modifies this
      ensures onSetupFixtures == old(onSetupFixtures) + [Fixture(serviceType, action)]
      ensures serviceProvider == old(serviceProvider) && onConfigureTestServices == old(onConfigureTestServices)
    {
      onSetupFixtures := onSetupFixtures + [Fixture(serviceType, action)];
    }

    /** `UsingService(action)` and `UsingServiceAsync(action)`: the action gets the root provider itself. */
    method UsingServiceProvider(action: nat, run: Call -> TaskStatus) returns (c: Option<Call>, o: Outcome)
      ensures serviceProvider.None? ==> c == None && o == Raise(InvalidOperation)
      ensures serviceProvider.Some? ==>
        c == Some(Call(action, [ProviderArg(Root(serviceProvider.value))])) && o == ActionOutcome(run(c.value))
    {
      o := CreatedGuard(serviceProvider);
      if o == Pass {
        var call := Call(action, [ProviderArg(Root(serviceProvider.value))]);
        c := Some(call);
        o := ActionOutcome(run(call));
      } else {
        c := None;
      }
    }

    /** `UsingService<T1[, T2[, T3]]>(action)` and their async forms: every service comes from the root provider. */
    method UsingService(action: nat, services: seq<Ty>, run: Call -> TaskStatus) returns (c: Option<Call>, o: Outcome)
      requires 1 <= |services| <= 3
      ensures serviceProvider.None? ==> c == None && o == Raise(InvalidOperation)
      ensures serviceProvider.Some? ==>
        c.Some? && c.value.action == action && |c.value.arguments| == |services|
        && (forall i :: 0 <= i < |services| ==> c.value.arguments[i] == ServiceArg(services[i], Root(serviceProvider.value)))
        && o == ActionOutcome(run(c.value))
    {
      o := CreatedGuard(serviceProvider);
      if o == Pass {
        var call := Call(action, ServiceArguments(services, Root(serviceProvider.value)));
        c := Some(call);
        o := ActionOutcome(run(call));
      } else {
        c := None;
      }
    }

    /**
     * `CreateClient(...)` through `WithWebHostBuilder()`: the test-service
     * handlers are replayed over the application's registrations; when they
     * all return, the provider built from the result is stored and every
     * fixture gets its service from it. The fixtures' tasks are all waited
     * on (see InvokeAndWaitLast for the wait as written).
     */
    method CreateClient(appServices: seq<Descriptor>, authentication: AuthenticationOptions, provider: ProviderId, run: Call -> TaskStatus)
      returns (replayed: nat, fixtureCalls: seq<Call>, o: Outcome)
      modifies this
      ensures onSetupFixtures == old(onSetupFixtures) && onConfigureTestServices == old(onConfigureTestServices)
      ensures var st := BuildState(appServices, authentication);
              var replay := ApplyAll(st, onConfigureTestServices);
              var calls := FixtureCalls(onSetupFixtures, Root(provider));
        replayed == ReplayedCount(st, onConfigureTestServices)
        && (replay.Err? ==> o == Raise(replay.failure) && fixtureCalls == [] && serviceProvider == old(serviceProvider))
        && (replay.Ok? ==>
              serviceProvider == Some(provider) && fixtureCalls == Invoked(calls, run) && o == WhenAllOutcome(calls, run))
    {
      var st := BuildState(appServices, authentication);
      var replay := Replay(st, onConfigureTestServices);
      replayed := ReplayedCount(st, onConfigureTestServices);
      if replay.Err? {
        return replayed, [], Raise(replay.failure);
      }
      serviceProvider := Some(provider);
      fixtureCalls, o := WhenAll(FixtureCalls(onSetupFixtures, Root(provider)), run);
    }
  }
}
