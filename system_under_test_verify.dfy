/**
 * The facade's assertions over the service collection it captured when the
 * host configured its test services. Each one first requires that a
 * collection was captured; none of them changes it.
 */
module SystemUnderTestVerify {
  import opened Types
  import opened DependencyInjection
  import opened ServiceCollectionHelper

  /** `CheckServiceCollectionAllocated`: InvalidOperationException until a collection was captured. */
  function CheckServiceCollectionAllocated(captured: Option<seq<Descriptor>>): (o: Outcome)
    ensures o == Pass <==> captured.Some?
    ensures o.Raise? ==> o.failure == InvalidOperation
  {
    if captured.Some? then Pass else Raise(InvalidOperation)
  }

  /** A FluentAssertions assertion: it passes when the asserted fact holds and fails otherwise. */
  function Should(holds: bool): (o: Outcome)
    ensures o == Pass <==> holds
    ensures o.Raise? ==> o.failure == AssertionFailed
  {
    if holds then Pass else Raise(AssertionFailed)
  }

  /** `VerifyRegisteredLifeTimeOfService<TService>(lifetime)`. */
  function VerifyRegisteredLifeTimeOfService(captured: Option<seq<Descriptor>>, serviceType: Ty, lifetime: Lifetime): (o: Outcome)
    ensures captured.None? ==> o == Raise(InvalidOperation)
    ensures captured.Some? && (forall d :: d in captured.value ==> d.serviceType != serviceType) ==> o == Raise(InvalidOperation)
    ensures o == Raise(AssertionFailed) ==> captured.Some? && FindServiceDescriptor(captured.value, serviceType).Ok?
  {
    if captured.None? then Raise(InvalidOperation)
    else match FindServiceDescriptor(captured.value, serviceType)
      case Err(f) => Raise(f)
      case Ok(d) => Should(d.lifetime == lifetime)
  }

  /** `i` is the position of the first registration of `t`. */
  predicate FirstOfType(s: seq<Descriptor>, t: Ty, i: nat) {
    i < |s| && s[i].serviceType == t && forall j :: 0 <= j < i ==> s[j].serviceType != t
  }

  /** There is only one first registration of a type. */
  lemma FirstOfTypeUnique(s: seq<Descriptor>, t: Ty, i: nat, k: nat)
    requires FirstOfType(s, t, i) && FirstOfType(s, t, k)
    ensures i == k
  {
  }

  /**
   * The lifetime check passes exactly when the FIRST registration of the
   * service has that lifetime; a later registration's lifetime does not
   * count.
   */
  lemma LifetimeVerifiedIff(s: seq<Descriptor>, serviceType: Ty, lifetime: Lifetime)
    ensures VerifyRegisteredLifeTimeOfService(Some(s), serviceType, lifetime) == Pass <==>
      exists i: nat :: FirstOfType(s, serviceType, i) && s[i].lifetime == lifetime
  {
    var r := FindServiceDescriptor(s, serviceType);
    if r.Ok? {
      var k :| 0 <= k < |s| && s[k] == r.value && forall j :: 0 <= j < k ==> s[j].serviceType != serviceType;
      assert FirstOfType(s, serviceType, k);
      forall i: nat | FirstOfType(s, serviceType, i)
        ensures i == k
      {
        FirstOfTypeUnique(s, serviceType, i, k);
      }
    } else {
      forall i: nat | i < |s|
        ensures s[i].serviceType != serviceType
      {
        assert s[i] in s;
      }
    }
  }

  /**
   * `GetImplementationType(descriptor)`: the declared implementation type if
   * any, else the runtime type of the registered instance, else the runtime
   * type of what a provider built from the captured collection resolves for
   * the service type (`resolve`); InvalidOperationException when that is null.
   */
  function GetImplementationType(d: Descriptor, resolve: Ty -> Option<Obj>): (r: Result<Ty>)
    ensures d.implementation.ByType? ==> r == Ok(d.implementation.implementationType)
    ensures d.implementation.ByInstance? ==> r == Ok(RuntimeType(d.implementation.instance))
    ensures d.implementation.ByFactory? ==>
      (r.Err? <==> resolve(d.serviceType).None?)
      && (r.Err? ==> r.failure == InvalidOperation)
      && (r.Ok? ==> r.value == RuntimeType(resolve(d.serviceType).value))
  {
    match ImplementationType(d)
    case Some(t) => Ok(t)
    case None =>
      match ImplementationInstance(d)
      case Some(o) => Ok(RuntimeType(o))
      case None =>
        match resolve(d.serviceType)
        case None => Err(InvalidOperation)
        case Some(o) => Ok(RuntimeType(o))
  }

  /** `VerifyRegisteredImplementationTypeOfService<TService, TImplementation>()`. */
  function VerifyRegisteredImplementationTypeOfService(captured: Option<seq<Descriptor>>, serviceType: Ty, implementation: Ty,
                                                       resolve: Ty -> Option<Obj>): (o: Outcome)
    ensures captured.None? ==> o == Raise(InvalidOperation)
    ensures captured.Some? && (forall d :: d in captured.value ==> d.serviceType != serviceType) ==> o == Raise(InvalidOperation)
  {
    if captured.None? then Raise(InvalidOperation)
    else match FindServiceDescriptor(captured.value, serviceType)
      case Err(f) => Raise(f)
      case Ok(d) =>
        match GetImplementationType(d, resolve)
        case Err(f) => Raise(f)
        case Ok(t) => Should(t == implementation)
  }

  /**
   * Once the collection is captured and the service is registered, the check
   * passes exactly when the effective implementation type of the first
   * registration is TImplementation, for every kind of registration. When
   * that registration names its implementation type or instance, this does
   * not depend on what the provider would resolve; for a factory
   * registration that resolves to null the check raises InvalidOperation.
   */
  lemma ImplementationTypeVerifiedIff(s: seq<Descriptor>, serviceType: Ty, implementation: Ty, resolve: Ty -> Option<Obj>, i: nat)
    requires FirstOfType(s, serviceType, i)
    ensures VerifyRegisteredImplementationTypeOfService(Some(s), serviceType, implementation, resolve) == Pass <==>
      GetImplementationType(s[i], resolve) == Ok(implementation)
    ensures !s[i].implementation.ByFactory? ==>
      (VerifyRegisteredImplementationTypeOfService(Some(s), serviceType, implementation, resolve) == Pass <==>
       (ImplementationType(s[i]) == Some(implementation)
        || (ImplementationInstance(s[i]).Some? && RuntimeType(ImplementationInstance(s[i]).value) == implementation)))
    ensures s[i].implementation.ByFactory? && resolve(serviceType).None? ==>
      VerifyRegisteredImplementationTypeOfService(Some(s), serviceType, implementation, resolve) == Raise(InvalidOperation)
  {
    var r := FindServiceDescriptor(s, serviceType);
    assert s[i] in s;
    var k :| 0 <= k < |s| && s[k] == r.value && forall j :: 0 <= j < k ==> s[j].serviceType != serviceType;
    assert FirstOfType(s, serviceType, k);
    FirstOfTypeUnique(s, serviceType, i, k);
  }

  /** `VerifyRegistrationByCondition(condition)`: some registration satisfies the condition. */
  function VerifyRegistrationByCondition(captured: Option<seq<Descriptor>>, condition: Descriptor -> bool): (o: Outcome)
    ensures captured.None? ==> o == Raise(InvalidOperation)
    ensures o == Pass <==> captured.Some? && exists d :: d in captured.value && condition(d)
    ensures captured.Some? && o.Raise? ==> o.failure == AssertionFailed
  {
    if captured.None? then Raise(InvalidOperation)
    else
      var matching := Filter(captured.value, condition);
      assert matching != [] ==> matching[0] in matching;
      Should(matching != [])
  }

  /** `VerifyNoRegistrationByCondition(condition)`: no registration satisfies the condition. */
  function VerifyNoRegistrationByCondition(captured: Option<seq<Descriptor>>, condition: Descriptor -> bool): (o: Outcome)
    ensures captured.None? ==> o == Raise(InvalidOperation)
    ensures o == Pass <==> captured.Some? && forall d :: d in captured.value ==> !condition(d)
    ensures captured.Some? && o.Raise? ==> o.failure == AssertionFailed
  {
    if captured.None? then Raise(InvalidOperation)
    else
      var matching := Filter(captured.value, condition);
      assert matching != [] ==> matching[0] in matching;
      Should(matching == [])
  }

  /** Exactly one of the two condition checks passes on a captured collection. */
  lemma ConditionChecksComplementary(s: seq<Descriptor>, condition: Descriptor -> bool)
    ensures (VerifyRegistrationByCondition(Some(s), condition) == Pass) != (VerifyNoRegistrationByCondition(Some(s), condition) == Pass)
  {
  }

  /** `VerifyNoRegistration<TService>()` and `VerifyNoRegistration(serviceType)`. */
  function VerifyNoRegistration(captured: Option<seq<Descriptor>>, serviceType: Ty): (o: Outcome)
    ensures captured.None? ==> o == Raise(InvalidOperation)
    ensures o == Pass <==> captured.Some? && forall d :: d in captured.value ==> d.serviceType != serviceType
    ensures o == Pass <==> captured.Some? && FindServiceDescriptor(captured.value, serviceType).Err?
  {
    VerifyNoRegistrationByCondition(captured, OfServiceType(serviceType))
  }

  /**
   * The condition of `VerifyNoRegistration(serviceType, implementationType)`:
   * the service type matches, and the implementation type or the instance's
   * runtime type is `implementation`.
   */
  predicate RegisteredAs(d: Descriptor, service: Ty, implementation: Ty) {
    d.serviceType == service
    && (ImplementationType(d) == Some(implementation)
        || (ImplementationInstance(d).Some? && RuntimeType(ImplementationInstance(d).value) == implementation))
  }

  /**
   * The same condition as written, evaluated in collection order until it
   * first holds: `descriptor.ImplementationInstance.GetType()` is reached for
   * every registration of the service whose implementation type differs, and
   * dereferences null when it has no instance.
   */
  function ScanAsWritten(s: seq<Descriptor>, service: Ty, implementation: Ty): (o: Outcome)
    ensures o.Raise? ==> o.failure == AssertionFailed || o.failure == NullReference
  {
    if s == [] then Pass
    else
      var d := s[0];
      if d.serviceType == service && ImplementationType(d) != Some(implementation) && ImplementationInstance(d).None? then
        Raise(NullReference)
      else if RegisteredAs(d, service, implementation) then Raise(AssertionFailed)
      else ScanAsWritten(s[1..], service, implementation)
  }

  /** `VerifyNoRegistration(serviceType, implementationType)` as written. */
  function VerifyNoRegistrationOfAsWritten(captured: Option<seq<Descriptor>>, service: Ty, implementation: Ty): (o: Outcome)
    ensures captured.None? ==> o == Raise(InvalidOperation)
  {
    if captured.None? then Raise(InvalidOperation)
    else ScanAsWritten(captured.value, service, implementation)
  }

  /**
   * `VerifyNoRegistration<TService, TImplementation>()` and
   * `VerifyNoRegistration(serviceType, implementationType)` as evidently
   * intended: no registration of the service has that implementation type
   * or an instance of that type.
   */
  function VerifyNoRegistrationOf(captured: Option<seq<Descriptor>>, service: Ty, implementation: Ty): (o: Outcome)
    ensures captured.None? ==> o == Raise(InvalidOperation)
    ensures o == Pass <==> captured.Some? && forall d :: d in captured.value ==> !RegisteredAs(d, service, implementation)
    ensures captured.Some? && o.Raise? ==> o.failure == AssertionFailed
  {
    VerifyNoRegistrationByCondition(captured, (d: Descriptor) => RegisteredAs(d, service, implementation))
  }

  /** Where the code as written passes, the intended check passes too. */
  lemma {:induction false} ScanAsWrittenPasses(s: seq<Descriptor>, service: Ty, implementation: Ty)
    ensures ScanAsWritten(s, service, implementation) == Pass ==> forall d :: d in s ==> !RegisteredAs(d, service, implementation)
  {
    if s != [] {
      ScanAsWrittenPasses(s[1..], service, implementation);
      HeadTail(s);
    }
  }

  /** Where the code as written fails an assertion, something is registered as the implementation. */
  lemma {:induction false} ScanAsWrittenAsserts(s: seq<Descriptor>, service: Ty, implementation: Ty)
    ensures ScanAsWritten(s, service, implementation) == Raise(AssertionFailed) ==> exists d :: d in s && RegisteredAs(d, service, implementation)
  {
    if s != [] {
      ScanAsWrittenAsserts(s[1..], service, implementation);
      HeadTail(s);
    }
  }

  /**
   * The code as written agrees with the intended check on every collection
   * in which each registration of the service has either the implementation
   * type or an instance.
   */
  lemma {:induction false} ScanAsWrittenAgrees(s: seq<Descriptor>, service: Ty, implementation: Ty)
    requires forall d :: d in s && d.serviceType == service ==> ImplementationType(d) == Some(implementation) || ImplementationInstance(d).Some?
    ensures ScanAsWritten(s, service, implementation) == VerifyNoRegistrationOf(Some(s), service, implementation)
  {
    if s != [] {
      HeadTail(s);
      ScanAsWrittenAgrees(s[1..], service, implementation);
    }
  }

  /**
   * One registration of the service by another implementation type: the
   * code as written dereferences null, while there is evidently nothing
   * registered as TImplementation and the check should pass.
   */
  lemma VerifyNoRegistrationNullReference(service: Ty, other: Ty, implementation: Ty, lifetime: Lifetime)
    requires other != implementation
    ensures VerifyNoRegistrationOfAsWritten(Some([Descriptor(service, ByType(other), lifetime)]), service, implementation) == Raise(NullReference)
    ensures VerifyNoRegistrationOf(Some([Descriptor(service, ByType(other), lifetime)]), service, implementation) == Pass
  {
    var d := Descriptor(service, ByType(other), lifetime);
    OnlyElement(d);
    assert !RegisteredAs(d, service, implementation);
  }
}
