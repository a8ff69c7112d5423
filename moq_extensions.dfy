/**
 * The Moq support of the base facade: one mock per service type, kept in
 * the internal registry under Mock<TService>, whose object replaces the
 * service; lookups of that mock; and call verification through it.
 */
module MoqExtensions {
  import opened Types
  import opened DependencyInjection
  import opened TestServices
  import opened SystemUnderTestBase

  /** Moq's `Times`: how many recorded calls a verification accepts. */
  datatype Times = AtLeastOnce | AtMostOnce | Once | Never | Exactly(n: nat) | AtLeast(n: nat) | AtMost(n: nat)

  predicate Allows(times: Times, count: nat) {
    match times
    case AtLeastOnce => count >= 1
    case AtMostOnce => count <= 1
    case Once => count == 1
    case Never => count == 0
    case Exactly(n) => count == n
    case AtLeast(n) => count >= n
    case AtMost(n) => count <= n
  }

  /**
   * `MockService<TService>()` and its `out mock` overload: refused once a
   * client exists; otherwise the mock kept under Mock<TService> (the one
   * `created` here when there was none) is returned and its object replaces
   * TService as an instance.
   */
  method MockService(sut: SystemUnderTest, service: Ty, created: Obj) returns (mock: Option<Obj>, o: Outcome)
    requires sut.Valid() && IsMockOf(created, service)
    modifies sut
    ensures sut.Valid()
    ensures old(sut.serviceProvider).Some? ==> o == Raise(InvalidOperation) && mock == None && unchanged(sut)
    ensures old(sut.serviceProvider).None? ==>
      && o == Pass && mock.Some? && IsMockOf(mock.value, service)
      && sut.ReplacedByDouble(MockOf(service), created, mock.value, ReplaceWithInstance(service, MockedObject(mock.value)))
  {
    o := NotCreatedGuard(sut.serviceProvider);
    if o != Pass {
      return None, o;
    }
    var m := sut.GetOrAddInternalService(MockOf(service), created);
    o := sut.ReplaceServiceWith(service, MockedObject(m));
    mock := Some(m);
  }

  /** `MockService<TService>(mockAction)`: the same, then the action configures the mock. */
  method MockServiceThen(sut: SystemUnderTest, service: Ty, created: Obj, action: nat, run: Call -> TaskStatus)
    returns (c: Option<Call>, o: Outcome)
    requires sut.Valid() && IsMockOf(created, service)
    modifies sut
    ensures sut.Valid()
    ensures old(sut.serviceProvider).Some? ==> o == Raise(InvalidOperation) && c == None && unchanged(sut)
    ensures old(sut.serviceProvider).None? ==>
      && GetService(sut.internalServiceCollection, MockOf(service)).Some?
      && var mock := GetService(sut.internalServiceCollection, MockOf(service)).value;
      && sut.ReplacedByDouble(MockOf(service), created, mock, ReplaceWithInstance(service, MockedObject(mock)))
      && c == Some(Call(action, [ObjectArg(mock)])) && o == ActionOutcome(run(c.value))
  {
    var mock;
    mock, o := MockService(sut, service, created);
    if o != Pass {
      return None, o;
    }
    var call := Call(action, [ObjectArg(mock.value)]);
    c := Some(call);
    o := ActionOutcome(run(call));
  }

  /**
   * `GetServiceMock<TService>()` and its `out` overload: the mock kept for
   * TService, which is a mock of TService; InvalidOperation when the
   * service was never mocked.
   */
  method GetServiceMock(sut: SystemUnderTest, service: Ty) returns (r: Result<Obj>)
    requires sut.Valid()
    ensures r.Err? <==> forall d :: d in sut.internalServiceCollection ==> d.serviceType != MockOf(service)
    ensures r.Err? ==> r.failure == InvalidOperation
    ensures r.Ok? ==> GetService(sut.internalServiceCollection, MockOf(service)) == Some(r.value) && IsMockOf(r.value, service)
  {
    r := ResolveKept(sut.internalServiceCollection, MockOf(service));
  }

  /** `UseServiceMock<TService>(useMock)`: the action gets the kept mock. */
  method UseServiceMock(sut: SystemUnderTest, service: Ty, action: nat, run: Call -> TaskStatus) returns (c: Option<Call>, o: Outcome)
    requires sut.Valid()
    ensures GetService(sut.internalServiceCollection, MockOf(service)).None? ==> c == None && o == Raise(InvalidOperation)
    ensures GetService(sut.internalServiceCollection, MockOf(service)).Some? ==>
      && c == Some(Call(action, [ObjectArg(GetService(sut.internalServiceCollection, MockOf(service)).value)]))
      && IsMockOf(GetService(sut.internalServiceCollection, MockOf(service)).value, service)
      && o == ActionOutcome(run(c.value))
  {
    var mock := GetServiceMock(sut, service);
    if mock.Err? {
      return None, Raise(mock.failure);
    }
    var call := Call(action, [ObjectArg(mock.value)]);
    c := Some(call);
    o := ActionOutcome(run(call));
  }

  /**
   * `VerifyCall<TService>(expression, times)`: the kept mock must have
   * recorded a number of calls matching the expression that `times` accepts,
   * at least one when `times` is not given; otherwise the verification
   * raises. `recorded` gives, per mock, how many matching calls it saw.
   */
  method VerifyCall(sut: SystemUnderTest, service: Ty, recorded: Obj -> nat, times: Option<Times>) returns (o: Outcome)
    requires sut.Valid()
    ensures GetService(sut.internalServiceCollection, MockOf(service)).None? ==> o == Raise(InvalidOperation)
    ensures GetService(sut.internalServiceCollection, MockOf(service)).Some? ==>
      var count := recorded(GetService(sut.internalServiceCollection, MockOf(service)).value);
      && (times.None? ==> (o == Pass <==> count >= 1))
      && (times.Some? ==> (o == Pass <==> Allows(times.value, count)))
      && (o != Pass ==> o == Raise(AssertionFailed))
  {
    var mock := GetServiceMock(sut, service);
    if mock.Err? {
      return Raise(mock.failure);
    }
    o := if Allows(times.GetOr(AtLeastOnce), recorded(mock.value)) then Pass else Raise(AssertionFailed);
  }

  /** `VerifyCallOnce<TService>(expression)`: exactly one matching call. */
  method VerifyCallOnce(sut: SystemUnderTest, service: Ty, recorded: Obj -> nat) returns (o: Outcome)
    requires sut.Valid()
    ensures GetService(sut.internalServiceCollection, MockOf(service)).None? ==> o == Raise(InvalidOperation)
    ensures GetService(sut.internalServiceCollection, MockOf(service)).Some? ==>
      && (o == Pass <==> recorded(GetService(sut.internalServiceCollection, MockOf(service)).value) == 1)
      && (o != Pass ==> o == Raise(AssertionFailed))
  {
    o := VerifyCall(sut, service, recorded, Some(Once));
  }

  /** Mocking the same service twice before the client exists hands out one and the same mock. */
  method MockServiceTwice(sut: SystemUnderTest, service: Ty, first: Obj, second: Obj) returns (m1: Option<Obj>, m2: Option<Obj>)
    requires sut.Valid() && sut.serviceProvider.None?
    requires IsMockOf(first, service) && IsMockOf(second, service)
    modifies sut
    ensures m1.Some? && m1 == m2
  {
    var o;
    m1, o := MockService(sut, service, first);
    m2, o := MockService(sut, service, second);
  }
}
