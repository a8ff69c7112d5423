/**
 * The FakeItEasy support of the base facade: dummies and fakes are kept in
 * the internal registry under the service type itself, so a dummy and a
 * fake of the same service are one and the same object.
 */
module FakeItEasyExtensions {
  import opened Types
  import opened DependencyInjection
  import opened TestServices
  import opened SystemUnderTestBase

  /**
   * `ReplaceDummyService<TService>()`: refused once a client exists;
   * otherwise the object kept for TService (the dummy `created` here when
   * there was none) replaces TService as an instance.
   */
  method ReplaceDummyService(sut: SystemUnderTest, service: Ty, created: Obj) returns (o: Outcome)
    requires sut.Valid() && FitsService(created, service)
    modifies sut
    ensures sut.Valid()
    ensures old(sut.serviceProvider).Some? ==> o == Raise(InvalidOperation) && unchanged(sut)
    ensures old(sut.serviceProvider).None? ==>
      && o == Pass && GetService(sut.internalServiceCollection, service).Some?
      && var kept := GetService(sut.internalServiceCollection, service).value;
         sut.ReplacedByDouble(service, created, kept, ReplaceWithInstance(service, kept))
  {
    o := NotCreatedGuard(sut.serviceProvider);
    if o != Pass {
      return;
    }
    var dummy := sut.GetOrAddInternalService(service, created);
    o := sut.ReplaceServiceWith(service, dummy);
  }

  /**
   * `FakeService<TService>()` and its `out fake` overload: as
   * ReplaceDummyService, with a fake as the object made when none is kept;
   * the kept object is returned.
   */
  method FakeService(sut: SystemUnderTest, service: Ty, created: Obj) returns (fake: Option<Obj>, o: Outcome)
    requires sut.Valid() && FitsService(created, service)
    modifies sut
    ensures sut.Valid()
    ensures old(sut.serviceProvider).Some? ==> o == Raise(InvalidOperation) && fake == None && unchanged(sut)
    ensures old(sut.serviceProvider).None? ==>
      && o == Pass && fake.Some?
      && sut.ReplacedByDouble(service, created, fake.value, ReplaceWithInstance(service, fake.value))
  {
    o := NotCreatedGuard(sut.serviceProvider);
    if o != Pass {
      return None, o;
    }
    var f := sut.GetOrAddInternalService(service, created);
    o := sut.ReplaceServiceWith(service, f);
    fake := Some(f);
  }

  /** `FakeService<TService>(configureFake)`: the same, then the action configures the fake. */
  method FakeServiceThen(sut: SystemUnderTest, service: Ty, created: Obj, action: nat, run: Call -> TaskStatus)
    returns (c: Option<Call>, o: Outcome)
    requires sut.Valid() && FitsService(created, service)
    modifies sut
    ensures sut.Valid()
    ensures old(sut.serviceProvider).Some? ==> o == Raise(InvalidOperation) && c == None && unchanged(sut)
    ensures old(sut.serviceProvider).None? ==>
      && GetService(sut.internalServiceCollection, service).Some?
      && var fake := GetService(sut.internalServiceCollection, service).value;
      && sut.ReplacedByDouble(service, created, fake, ReplaceWithInstance(service, fake))
      && c == Some(Call(action, [ObjectArg(fake)])) && o == ActionOutcome(run(c.value))
  {
    var fake;
    fake, o := FakeService(sut, service, created);
    if o != Pass {
      return None, o;
    }
    var call := Call(action, [ObjectArg(fake.value)]);
    c := Some(call);
    o := ActionOutcome(run(call));
  }

  /** `GetFakeService<TService>()`: the object kept for TService; InvalidOperation when there is none. */
  method GetFakeService(sut: SystemUnderTest, service: Ty) returns (r: Result<Obj>)
    requires sut.Valid()
    ensures r.Err? <==> forall d :: d in sut.internalServiceCollection ==> d.serviceType != service
    ensures r.Err? ==> r.failure == InvalidOperation
    ensures r.Ok? ==> GetService(sut.internalServiceCollection, service) == Some(r.value)
  {
    r := ResolveKept(sut.internalServiceCollection, service);
  }

  /** `UseFakeService<TService>(useFakeService)`: the action gets the kept object. */
  method UseFakeService(sut: SystemUnderTest, service: Ty, action: nat, run: Call -> TaskStatus) returns (c: Option<Call>, o: Outcome)
    requires sut.Valid()
    ensures GetService(sut.internalServiceCollection, service).None? ==> c == None && o == Raise(InvalidOperation)
    ensures GetService(sut.internalServiceCollection, service).Some? ==>
      c == Some(Call(action, [ObjectArg(GetService(sut.internalServiceCollection, service).value)]))
      && o == ActionOutcome(run(c.value))
  {
    var fake := GetFakeService(sut, service);
    if fake.Err? {
      return None, Raise(fake.failure);
    }
    var call := Call(action, [ObjectArg(fake.value)]);
    c := Some(call);
    o := ActionOutcome(run(call));
  }

  /**
   * A dummy registered first is what a later FakeService returns, and what
   * GetFakeService finds: the two share the one registry key.
   */
  method DummyThenFake(sut: SystemUnderTest, service: Ty, dummy: Obj, fake: Obj) returns (f: Option<Obj>, got: Result<Obj>)
    requires sut.Valid() && sut.serviceProvider.None?
    requires forall d :: d in sut.internalServiceCollection ==> d.serviceType != service
    requires FitsService(dummy, service) && FitsService(fake, service)
    modifies sut
    ensures f == Some(dummy) && got == Ok(dummy)
  {
    var o := ReplaceDummyService(sut, service, dummy);
    f, o := FakeService(sut, service, fake);
    got := GetFakeService(sut, service);
  }
}
