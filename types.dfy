/**
 * The values the test facade works on: runtime types, objects, service
 * descriptors and lifetimes of the dependency-injection registry, failures
 * the facade raises, deferred host mutations, setup fixtures and the calls
 * the facade makes into test code.
 */
module Types {

  /** Runtime types, as far as the facade inspects them. */
  datatype Ty =
    | SystemObject                                  // System.Object, which has no base type
    | Interface(id: nat)                            // an application interface (no base type)
    | Class(id: nat, base: Ty)                      // an application class with its base class
    | StartupFilter                                 // IStartupFilter
    | LoggerFactoryService                          // ILoggerFactory
    | DistributedCacheService                       // IDistributedCache
    | ConfigureOptionsOf(options: Ty)               // IConfigureOptions<TOptions>
    | ConfigureOptionsClass(options: Ty)            // ConfigureOptions<TOptions>
    | ConfigureNamedOptionsClass(options: Ty)       // ConfigureNamedOptions<TOptions>
    | ValidateOptionsOf(options: Ty)                // IValidateOptions<TOptions>
    | DataAnnotationValidateOptionsClass(options: Ty) // DataAnnotationValidateOptions<TOptions>
    | AuthenticationOptionsClass                    // AuthenticationOptions
    | AuthenticationHandlerOf(options: Ty)          // AuthenticationHandler<TOptions>
    | FakeAuthenticationHandlerOf(options: Ty)      // FakeAuthenticationHandler<TOptions>
    | MockOf(service: Ty)                           // Moq's Mock<TService>
    | ProxyOf(service: Ty)                          // the class a mocking library generates for TService

  /** `Type.BaseType`: interfaces and System.Object have none. */
  function BaseType(t: Ty): (r: Option<Ty>)
    ensures r.None? <==> t.SystemObject? || t.Interface? || t.StartupFilter? || t.LoggerFactoryService?
                         || t.DistributedCacheService? || t.ConfigureOptionsOf? || t.ValidateOptionsOf?
  {
    match t
    case SystemObject => None
    case Interface(_) => None
    case StartupFilter => None
    case LoggerFactoryService => None
    case DistributedCacheService => None
    case ConfigureOptionsOf(_) => None
    case ValidateOptionsOf(_) => None
    case Class(_, b) => Some(b)
    case _ => Some(SystemObject)
  }

  datatype Option<+T> = None | Some(value: T) {
    function GetOr(default: T): T {
      match this
      case Some(v) => v
      case None => default
    }
  }

  /** The exceptions the modelled code raises. */
  datatype Failure =
    | InvalidOperation   // InvalidOperationException (guards, First, Single, explicit throws)
    | NullReference      // NullReferenceException
    | ArgumentNull       // ArgumentNullException
    | AssertionFailed    // a failed FluentAssertions assertion, or a failed Moq `Verify` (MockException)
    | Aggregate          // AggregateException from waiting on a faulted task
    | ActionFailed       // whatever a test-supplied action throws synchronously

  datatype Result<+T> = Ok(value: T) | Err(failure: Failure)

  datatype Outcome = Pass | Raise(failure: Failure)

  /** Identities of a built service provider and of a scope opened on it. */
  type ProviderId = nat
  type ScopeId = nat

  /** The provider an argument was resolved from: a built provider, or a scope opened on one. */
  datatype Provider = Root(id: ProviderId) | Scope(root: ProviderId, id: ScopeId)

  datatype Lifetime = Singleton | Scoped | Transient

  /** The result an authentication handler reports. */
  datatype AuthenticateResult =
    | Success(principal: nat, authenticationScheme: string)
    | FailWithMessage(message: string)
    | FailWithException(exception: nat)
    | NoResult

  /** Objects the facade stores, known by identity and runtime type. */
  datatype Obj =
    | Instance(id: nat, runtimeType: Ty)                          // an object some caller or library created
    | ConfigureOptionsObj(options: Ty, configurer: nat)           // a ConfigureOptions<TOptions> wrapping a configurer
    | ConfigureNamedOptionsObj(options: Ty, name: string, configurer: nat) // a ConfigureNamedOptions<TOptions> for one name
    | FakeHandlerObj(handlerType: Ty, result: AuthenticateResult) // a fake handler whose result was already set

  /** `obj.GetType()`. */
  function RuntimeType(o: Obj): Ty {
    match o
    case Instance(_, t) => t
    case ConfigureOptionsObj(options, _) => ConfigureOptionsClass(options)
    case ConfigureNamedOptionsObj(options, _, _) => ConfigureNamedOptionsClass(options)
    case FakeHandlerObj(t, _) => t
  }

  /** A Moq mock of TService has runtime type Mock<TService>. */
  predicate IsMockOf(mock: Obj, service: Ty) {
    mock.Instance? && mock.runtimeType == MockOf(service)
  }

  /** `mock.Object` of a Moq mock: the generated object behind the mock, the same on every read. */
  function MockedObject(mock: Obj): Obj
    requires mock.Instance? && mock.runtimeType.MockOf?
  {
    Instance(mock.id, ProxyOf(mock.runtimeType.service))
  }

  datatype Factory =
    | ReturnsObject(obj: Obj)   // a factory that ignores the provider and returns obj
    | AppFactory(id: nat)       // a factory delegate supplied by the application

  datatype Implementation =
    | ByType(implementationType: Ty)
    | ByInstance(instance: Obj)
    | ByFactory(factory: Factory)

  /** A `ServiceDescriptor`. */
  datatype Descriptor = Descriptor(serviceType: Ty, implementation: Implementation, lifetime: Lifetime)

  /** `descriptor.ImplementationType`, null unless registered by type. */
  function ImplementationType(d: Descriptor): Option<Ty> {
    if d.implementation.ByType? then Some(d.implementation.implementationType) else None
  }

  /** `descriptor.ImplementationInstance`, null unless registered by instance. */
  function ImplementationInstance(d: Descriptor): Option<Obj> {
    if d.implementation.ByInstance? then Some(d.implementation.instance) else None
  }

  /** An instance registration: always a singleton. */
  function InstanceDescriptor(t: Ty, o: Obj): Descriptor {
    Descriptor(t, ByInstance(o), Singleton)
  }

  /** Opaque mutations of the web host builder; their effect belongs to the framework. */
  datatype ConfigurationSource =
    | CustomConfiguration(action: nat)              // ConfigureAppConfiguration(action)
    | JsonObject(options: nat)                      // OverrideAppConfiguration(options): serialised to a JSON stream
    | InMemoryPairs(pairs: seq<(string, string)>)   // OverrideAppConfiguration(path, value) or (dictionary)

  datatype HostMutation =
    | SetupWebHostBuilder(action: nat)
    | UseEnvironment(environment: string)
    | UseSetting(key: string, value: string)
    | ConfigureAppConfiguration(source: ConfigurationSource)
    | ConfigureServices(action: nat)

  /** A setup fixture: an action that receives the resolved `serviceType`. */
  datatype Fixture = Fixture(serviceType: Ty, action: nat)

  /** An argument handed to a test action: a provider, a service resolved from one, or an object the facade holds. */
  datatype Argument = ProviderArg(provider: Provider) | ServiceArg(serviceType: Ty, from: Provider) | ObjectArg(obj: Obj)

  /** One invocation of a test-supplied action. */
  datatype Call = Call(action: nat, arguments: seq<Argument>)

  /** How the task a test-supplied action returns ends, or whether the action throws before returning one. */
  datatype TaskStatus = RanToCompletion | Faulted | Threw

  /** Invoking a test action and awaiting it: whatever it throws, synchronously or through its task, propagates. */
  function ActionOutcome(status: TaskStatus): (o: Outcome)
    ensures o == Pass <==> status == RanToCompletion
    ensures o.Raise? ==> o.failure == ActionFailed
  {
    if status == RanToCompletion then Pass else Raise(ActionFailed)
  }

  /** The call a fixture makes when it is handed `p`: `action(p.GetService<TService>())`. */
  function FixtureCall(f: Fixture, p: Provider): Call {
    Call(f.action, [ServiceArg(f.serviceType, p)])
  }

  /** The calls that invoking every fixture of `fs`, in order, against `p` makes. */
  function FixtureCalls(fs: seq<Fixture>, p: Provider): (cs: seq<Call>)
    ensures |cs| == |fs|
    ensures forall i :: 0 <= i < |fs| ==> cs[i] == FixtureCall(fs[i], p)
  {
    seq(|fs|, i requires 0 <= i < |fs| => FixtureCall(fs[i], p))
  }
}
