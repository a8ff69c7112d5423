/**
 * The NSubstitute support of the base facade: one substitute per service
 * type, kept in the internal registry under the service type.
 */
module NSubstituteExtensions {
  import opened Types
  import opened DependencyInjection
  import opened TestServices
  import opened SystemUnderTestBase

  /**
   * `ReplaceWithNSubstitute<T>(out substitute)`: refused once a client
   * exists; otherwise the substitute kept for T (the one `created` here when
   * there was none) is returned and replaces T as an instance.
   */
  method ReplaceWithNSubstitute(sut: SystemUnderTest, service: Ty, created: Obj) returns (substitute: Option<Obj>, o: Outcome)
    requires sut.Valid() && FitsService(created, service)
    modifies sut
    ensures sut.Valid()
    ensures old(sut.serviceProvider).Some? ==> o == Raise(InvalidOperation) && substitute == None && unchanged(sut)
    ensures old(sut.serviceProvider).None? ==>
      && o == Pass && substitute.Some?
      && sut.ReplacedByDouble(service, created, substitute.value, ReplaceWithInstance(service, substitute.value))
  {
    o := NotCreatedGuard(sut.serviceProvider);
    if o != Pass {
      return None, o;
    }
    var s := sut.GetOrAddInternalService(service, created);
    o := sut.ReplaceServiceWith(service, s);
    substitute := Some(s);
  }

  /** `ReplaceWithNSubstitute<T>(setup)`: the same, then the action sets the substitute up. */
  method ReplaceWithNSubstituteThen(sut: SystemUnderTest, service: Ty, created: Obj, action: nat, run: Call -> TaskStatus)
    returns (c: Option<Call>, o: Outcome)
    requires sut.Valid() && FitsService(created, service)
    modifies sut
    ensures sut.Valid()
    ensures old(sut.serviceProvider).Some? ==> o == Raise(InvalidOperation) && c == None && unchanged(sut)
    ensures old(sut.serviceProvider).None? ==>
      && GetService(sut.internalServiceCollection, service).Some?
      && var substitute := GetService(sut.internalServiceCollection, service).value;
      && sut.ReplacedByDouble(service, created, substitute, ReplaceWithInstance(service, substitute))
      && c == Some(Call(action, [ObjectArg(substitute)])) && o == ActionOutcome(run(c.value))
  {
    var substitute;
    substitute, o := ReplaceWithNSubstitute(sut, service, created);
    if o != Pass {
      return None, o;
    }
    var call := Call(action, [ObjectArg(substitute.value)]);
    c := Some(call);
    o := ActionOutcome(run(call));
  }

  /** `GetSubstitute<T>()` and its `out` overload: the substitute kept for T; InvalidOperation when there is none. */
  method GetSubstitute(sut: SystemUnderTest, service: Ty) returns (r: Result<Obj>)
    requires sut.Valid()
    ensures r.Err? <==> forall d :: d in sut.internalServiceCollection ==> d.serviceType != service
    ensures r.Err? ==> r.failure == InvalidOperation
    ensures r.Ok? ==> GetService(sut.internalServiceCollection, service) == Some(r.value)
  {
    r := ResolveKept(sut.internalServiceCollection, service);
  }

  /** `UseSubstitute<T>(verify)`: the action gets the kept substitute. */
  method UseSubstitute(sut: SystemUnderTest, service: Ty, action: nat, run: Call -> TaskStatus) returns (c: Option<Call>, o: Outcome)
    requires sut.Valid()
    ensures GetService(sut.internalServiceCollection, service).None? ==> c == None && o == Raise(InvalidOperation)
    ensures GetService(sut.internalServiceCollection, service).Some? ==>
      c == Some(Call(action, [ObjectArg(GetService(sut.internalServiceCollection, service).value)]))
      && o == ActionOutcome(run(c.value))
  {
    var substitute := GetSubstitute(sut, service);
    if substitute.Err? {
      return None, Raise(substitute.failure);
    }
    var call := Call(action, [ObjectArg(substitute.value)]);
    c := Some(call);
    o := ActionOutcome(run(call));
  }

  /** Replacing the same service twice hands out one substitute, the one GetSubstitute then finds. */
  method ReplaceTwice(sut: SystemUnderTest, service: Ty, first: Obj, second: Obj) returns (s1: Option<Obj>, s2: Option<Obj>, got: Result<Obj>)
    requires sut.Valid() && sut.serviceProvider.None?
    requires FitsService(first, service) && FitsService(second, service)
    modifies sut
    ensures s1.Some? && s1 == s2 && got == Ok(s1.value)
  {
    var o;
    s1, o := ReplaceWithNSubstitute(sut, service, first);
    s2, o := ReplaceWithNSubstitute(sut, service, second);
    got := GetSubstitute(sut, service);
  }
}
