/**
 * The registry mutations the facade defers until the host builds its
 * services (the handlers it adds to OnConfigureTestServices), what each does
 * to the service collection when it is replayed, and the replay itself.
 */
module TestServices {
  import opened Types
  import opened DependencyInjection
  import opened ServiceCollectionHelper
  import opened AuthenticationSchemes

  /** One deferred handler of OnConfigureTestServices. */
  datatype ServiceMutation =
    | ReplaceWithType(service: Ty, implementation: Ty, lifetime: Option<Lifetime>)  // ReplaceService<TService, TImplementation>(lifetime)
    | ReplaceWithInstance(service: Ty, instance: Obj)                              // ReplaceService<TService>(obj): an instance descriptor
    | ReplaceWithObjectFactory(service: Ty, instance: Obj)                         // ReplaceService<TService>(obj) of the generic revisions: a singleton factory returning obj
    | ReplaceConfigureOptions(options: Ty, configurer: nat)
    | RemoveAllOfType(serviceType: Ty)                                           // RemoveAll, DisableStartupFilters, DisableOptionValidations
    | RemoveImplementation(service: Ty, implementation: Ty)                      // Remove(serviceType, implementationType)
    | RemoveAllBy(condition: Descriptor -> bool)
    | RemoveSingleBy(condition: Descriptor -> bool)
    | DisableStartupFilter(filter: Ty)
    | ReplaceNamedConfigureOptions(options: Ty, name: string, configurer: nat)
    | DisableOptionDataAnnotationValidation(options: Ty)
    | ReplaceAuthenticationHandler(picker: SchemePicker, replacement: HandlerReplacement, validateScheme: Option<string>)

  /**
   * What a replay works on: the service collection, and the authentication
   * options the application's configuration yields (which the
   * authentication-handler mutation post-configures).
   */
  datatype BuildState = BuildState(services: seq<Descriptor>, authentication: AuthenticationOptions)

  /** A registration of `service` whose implementation type is `implementation`. */
  function ImplementedBy(service: Ty, implementation: Ty): Descriptor -> bool {
    (d: Descriptor) => d.serviceType == service && ImplementationType(d) == Some(implementation)
  }

  /** A registration whose implementation type is the filter type, or whose instance is of that runtime type. */
  function IsStartupFilter(filter: Ty): Descriptor -> bool {
    (d: Descriptor) =>
      ImplementationType(d) == Some(filter)
      || (ImplementationInstance(d).Some? && RuntimeType(ImplementationInstance(d).value) == filter)
  }

  /** A registration of IConfigureOptions<TOptions> whose instance is a ConfigureNamedOptions<TOptions> named `name`. */
  function IsNamedConfigurer(options: Ty, name: string): Descriptor -> bool {
    (d: Descriptor) =>
      d.serviceType == ConfigureOptionsOf(options)
      && d.implementation.ByInstance?
      && d.implementation.instance.ConfigureNamedOptionsObj?
      && d.implementation.instance.options == options
      && d.implementation.instance.name == name
  }

  /** A registration of IValidateOptions<TOptions> whose instance is a DataAnnotationValidateOptions<TOptions>. */
  function IsDataAnnotationValidator(options: Ty): Descriptor -> bool {
    (d: Descriptor) =>
      d.serviceType == ValidateOptionsOf(options)
      && ImplementationInstance(d).Some?
      && RuntimeType(ImplementationInstance(d).value) == DataAnnotationValidateOptionsClass(options)
  }

  /** The service type every authentication setup registers. */
  const AuthenticationConfigurer := ConfigureOptionsOf(AuthenticationOptionsClass)

  /** What one deferred handler does when the host invokes it. */
  function Apply(st: BuildState, m: ServiceMutation): Result<BuildState> {
    var services := st.services;
    match m
    case ReplaceWithType(service, implementation, lifetime) =>
      (match FindServiceDescriptor(services, service)
       case Err(f) => Err(f)
       case Ok(descriptor) =>
         Ok(st.(services := Replace(services, Descriptor(service, ByType(implementation), lifetime.GetOr(descriptor.lifetime))))))
    case ReplaceWithInstance(service, instance) =>
      Ok(st.(services := Replace(services, InstanceDescriptor(service, instance))))
    case ReplaceWithObjectFactory(service, instance) =>
      Ok(st.(services := Replace(services, Descriptor(service, ByFactory(ReturnsObject(instance)), Singleton))))
    case ReplaceConfigureOptions(options, configurer) =>
      Ok(st.(services := RemoveAll(services, ConfigureOptionsOf(options))
                         + [InstanceDescriptor(ConfigureOptionsOf(options), ConfigureOptionsObj(options, configurer))]))
    case RemoveAllOfType(t) =>
      Ok(st.(services := RemoveAll(services, t)))
    case RemoveImplementation(service, implementation) =>
      (match FirstOrDefault(services, ImplementedBy(service, implementation))
       case None => Ok(st)
       case Some(descriptor) => Ok(st.(services := Remove(services, descriptor))))
    case RemoveAllBy(condition) =>
      Ok(st.(services := Filter(services, Not(condition))))
    case RemoveSingleBy(condition) =>
      (match Single(services, condition)
       case Err(f) => Err(f)
       case Ok(descriptor) => Ok(st.(services := Remove(services, descriptor))))
    case DisableStartupFilter(filter) =>
      (match First(services, IsStartupFilter(filter))
       case Err(f) => Err(f)
       case Ok(registration) => Ok(st.(services := Remove(services, registration))))
    case ReplaceNamedConfigureOptions(options, name, configurer) =>
      Ok(st.(services := Filter(services, Not(IsNamedConfigurer(options, name)))
                         + [InstanceDescriptor(ConfigureOptionsOf(options), ConfigureNamedOptionsObj(options, name, configurer))]))
    case DisableOptionDataAnnotationValidation(options) =>
      (match FirstOrDefault(services, IsDataAnnotationValidator(options))
       case None => Ok(st)
       case Some(descriptor) => Ok(st.(services := Remove(services, descriptor))))
    case ReplaceAuthenticationHandler(picker, replacement, validateScheme) =>
      if forall d :: d in services ==> d.serviceType != AuthenticationConfigurer then Err(InvalidOperation)
      else if validateScheme.Some? && ValidateSchemeName(validateScheme.value, st.authentication).Raise? then Err(InvalidOperation)
      else
        match RewriteSchemes(picker, replacement, st.authentication.defaultScheme, services, st.authentication.schemes)
        case Err(f) => Err(f)
        case Ok(rewritten) => Ok(BuildState(rewritten.services, st.authentication.(schemes := rewritten.schemes)))
  }

  /** Invoking the handlers in subscription order; the first exception ends the invocation. */
  function ApplyAll(st: BuildState, ms: seq<ServiceMutation>): Result<BuildState> {
    if ms == [] then Ok(st)
    else match ApplyAll(st, ms[..|ms| - 1])
      case Err(f) => Err(f)
      case Ok(st') => Apply(st', ms[|ms| - 1])
  }

  /** The number of handlers invoked: all of them, or up to and including the one that raised. */
  function ReplayedCount(st: BuildState, ms: seq<ServiceMutation>): (n: nat)
    ensures n <= |ms|
  {
    if ms == [] then 0
    else if ApplyAll(st, ms[..|ms| - 1]).Err? then ReplayedCount(st, ms[..|ms| - 1])
    else |ms|
  }

  // ---------------------------------------------------------------------
  // The loops of the deferred handlers and of the replay.
  // ---------------------------------------------------------------------

  /**
   * The removal loop of RemoveAllBy: a snapshot of the matching registrations
   * is taken first, then each of them is removed in turn.
   */
  method RemoveEach(services: seq<Descriptor>, condition: Descriptor -> bool) returns (r: seq<Descriptor>)
    ensures r == Filter(services, Not(condition))
  {
    var snapshot := Filter(services, condition);
    r := services;
    var i := 0;
    Suffix(snapshot, 0);
    while i < |snapshot|
      invariant 0 <= i <= |snapshot|
      invariant Filter(r, condition) == snapshot[i..]
      invariant Filter(r, Not(condition)) == Filter(services, Not(condition))
    {
      Suffix(snapshot, i);
      RemoveMatchingHead(r, condition);
      r := Remove(r, snapshot[i]);
      i := i + 1;
    }
    Suffix(snapshot, i);
    FilterAll(r, Not(condition));
  }

  /** Removing the head of `Filter(s, p)` by value is removing the first match. */
  lemma RemoveMatchingHead(s: seq<Descriptor>, p: Descriptor -> bool)
    requires Filter(s, p) != []
    ensures Remove(s, Filter(s, p)[0]) == RemoveFirst(s, p)
    ensures Filter(Remove(s, Filter(s, p)[0]), p) == Filter(s, p)[1..]
    ensures Filter(Remove(s, Filter(s, p)[0]), Not(p)) == Filter(s, Not(p))
  {
    assert Filter(s, p)[0] in Filter(s, p);
    RemoveFirstFilter(s, p);
    RemoveFound(s, p);
    RemoveFirstCounts(s, p);
  }

  /** One handler, as the host runs it; the loops of the source are loops here. */
  method ApplyMutation(st: BuildState, m: ServiceMutation) returns (r: Result<BuildState>)
    ensures r == Apply(st, m)
  {
    match m
    case RemoveAllBy(condition) =>
      var services := RemoveEach(st.services, condition);
      r := Ok(st.(services := services));
    case ReplaceNamedConfigureOptions(options, name, configurer) =>
      var services := RemoveEach(st.services, IsNamedConfigurer(options, name));
      services := services + [InstanceDescriptor(ConfigureOptionsOf(options), ConfigureNamedOptionsObj(options, name, configurer))];
      r := Ok(st.(services := services));
    case ReplaceAuthenticationHandler(picker, replacement, validateScheme) =>
      if forall d :: d in st.services ==> d.serviceType != AuthenticationConfigurer {
        r := Err(InvalidOperation);
      } else if validateScheme.Some? && ValidateSchemeName(validateScheme.value, st.authentication).Raise? {
        r := Err(InvalidOperation);
      } else {
        var rewritten := ReplaceSchemeHandlers(picker, replacement, st.authentication, st.services);
        if rewritten.Err? {
          r := Err(rewritten.failure);
        } else {
          r := Ok(BuildState(rewritten.value.services, st.authentication.(schemes := rewritten.value.schemes)));
        }
      }
    case _ =>
      r := Apply(st, m);
  }

  /** Invoking the test-service handlers: in subscription order, stopping at the first exception. */
  method Replay(st: BuildState, ms: seq<ServiceMutation>) returns (r: Result<BuildState>)
    ensures r == ApplyAll(st, ms)
  {
    var current := st;
    var i := 0;
    while i < |ms|
      invariant 0 <= i <= |ms|
      invariant ApplyAll(st, ms[..i]) == Ok(current)
    {
      assert ms[..i + 1][..i] == ms[..i];
      var next := ApplyMutation(current, ms[i]);
      if next.Err? {
        ApplyAllFailureSticks(st, ms, i + 1);
        return next;
      }
      current := next.value;
      i := i + 1;
    }
    assert ms[..i] == ms;
    r := Ok(current);
  }

  // ---------------------------------------------------------------------
  // What each handler guarantees.
  // ---------------------------------------------------------------------

  /** Once the handlers up to `n` have failed, the whole replay fails the same way. */
  lemma {:induction false} ApplyAllFailureSticks(st: BuildState, ms: seq<ServiceMutation>, n: nat)
    requires n <= |ms|
    requires ApplyAll(st, ms[..n]).Err?
    ensures ApplyAll(st, ms) == ApplyAll(st, ms[..n])
    decreases |ms| - n
  {
    if n == |ms| {
      PrefixOfPrefix(ms, n, n);
    } else {
      PrefixOfPrefix(ms, n, n + 1);
      ApplyAllFailureSticks(st, ms, n + 1);
    }
  }

  /** Replaying `a + b` is replaying `a` and then, if that succeeded, `b` on its result. */
  lemma {:induction false} ApplyAllConcat(st: BuildState, a: seq<ServiceMutation>, b: seq<ServiceMutation>)
    ensures ApplyAll(st, a + b) == match ApplyAll(st, a) case Err(f) => Err(f) case Ok(st') => ApplyAll(st', b)
    decreases |b|
  {
    if b == [] {
      ConcatNil(a);
    } else {
      ConcatInit(a, b);
      ApplyAllConcat(st, a, b[..|b| - 1]);
    }
  }

  /** Once a handler has raised, the handlers after it change neither the outcome nor the count. */
  lemma ReplayStopsAfterFailure(st: BuildState, ms: seq<ServiceMutation>)
    requires ms != [] && ApplyAll(st, ms[..|ms| - 1]).Err?
    ensures ApplyAll(st, ms) == ApplyAll(st, ms[..|ms| - 1])
    ensures ReplayedCount(st, ms) == ReplayedCount(st, ms[..|ms| - 1])
  {
  }

  /** The replay invokes every handler when none raises, and otherwise stops right after the one that raised. */
  lemma {:induction false} ReplayedCountMeaning(st: BuildState, ms: seq<ServiceMutation>)
    ensures ApplyAll(st, ms).Ok? ==> ReplayedCount(st, ms) == |ms|
    ensures ApplyAll(st, ms).Err? ==>
      0 < ReplayedCount(st, ms)
      && ApplyAll(st, ms[..ReplayedCount(st, ms) - 1]).Ok?
      && ApplyAll(st, ms[..ReplayedCount(st, ms)]) == ApplyAll(st, ms)
  {
    if ms != [] {
      var init := ms[..|ms| - 1];
      ReplayedCountMeaning(st, init);
      if ApplyAll(st, init).Err? {
        var k := ReplayedCount(st, init);
        ReplayStopsAfterFailure(st, ms);
        PrefixOfPrefix(ms, k, |ms| - 1);
        PrefixOfPrefix(ms, k - 1, |ms| - 1);
        assert ms[..k] == init[..k] && ms[..k - 1] == init[..k - 1];
      } else {
        PrefixOfPrefix(ms, |ms|, |ms|);
      }
    }
  }

  /**
   * ReplaceService<TService, TImplementation>(lifetime): fails with
   * InvalidOperationException exactly when TService has no registration;
   * otherwise TImplementation is registered last, with the given lifetime or
   * else the lifetime of TService's first registration, the number of
   * TService registrations is unchanged and other types keep theirs, in order.
   */
  lemma ReplaceWithTypeEffect(st: BuildState, service: Ty, implementation: Ty, lifetime: Option<Lifetime>)
    ensures var r := Apply(st, ReplaceWithType(service, implementation, lifetime));
      (r.Err? <==> forall d :: d in st.services ==> d.serviceType != service)
      && (r.Err? ==> r.failure == InvalidOperation)
      && (r.Ok? ==>
            var s := r.value.services;
            var first := FindServiceDescriptor(st.services, service).value;
            |s| > 0
            && s[|s| - 1] == Descriptor(service, ByType(implementation), if lifetime.Some? then lifetime.value else first.lifetime)
            && Count(s, OfServiceType(service)) == Count(st.services, OfServiceType(service))
            && Filter(s, Not(OfServiceType(service))) == Filter(st.services, Not(OfServiceType(service)))
            && r.value.authentication == st.authentication)
  {
    var r := Apply(st, ReplaceWithType(service, implementation, lifetime));
    if r.Ok? {
      var first := FindServiceDescriptor(st.services, service).value;
      ReplaceCounts(st.services, Descriptor(service, ByType(implementation), lifetime.GetOr(first.lifetime)));
    }
  }

  /**
   * ReplaceService<TService>(obj): never fails; `obj` is registered last as
   * a singleton instance, one registration of TService is dropped when there
   * was any, and other types keep theirs, in order.
   */
  lemma ReplaceWithInstanceEffect(st: BuildState, service: Ty, instance: Obj)
    ensures var r := Apply(st, ReplaceWithInstance(service, instance));
      r.Ok?
      && var s := r.value.services;
      |s| > 0 && s[|s| - 1] == Descriptor(service, ByInstance(instance), Singleton)
      && Count(s, OfServiceType(service)) ==
           (if exists d :: d in st.services && d.serviceType == service then Count(st.services, OfServiceType(service)) else 1)
      && Filter(s, Not(OfServiceType(service))) == Filter(st.services, Not(OfServiceType(service)))
  {
    assert Apply(st, ReplaceWithInstance(service, instance)) == Ok(st.(services := Replace(st.services, InstanceDescriptor(service, instance))));
    ReplaceCounts(st.services, InstanceDescriptor(service, instance));
  }

  /** The generic revisions' ReplaceService<TService>(obj): the same, with a singleton factory returning `obj`. */
  lemma ReplaceWithObjectFactoryEffect(st: BuildState, service: Ty, instance: Obj)
    ensures var r := Apply(st, ReplaceWithObjectFactory(service, instance));
      r.Ok?
      && var s := r.value.services;
      |s| > 0 && s[|s| - 1] == Descriptor(service, ByFactory(ReturnsObject(instance)), Singleton)
      && Count(s, OfServiceType(service)) ==
           (if exists d :: d in st.services && d.serviceType == service then Count(st.services, OfServiceType(service)) else 1)
      && Filter(s, Not(OfServiceType(service))) == Filter(st.services, Not(OfServiceType(service)))
  {
    var d := Descriptor(service, ByFactory(ReturnsObject(instance)), Singleton);
    assert Apply(st, ReplaceWithObjectFactory(service, instance)) == Ok(st.(services := Replace(st.services, d)));
    ReplaceCounts(st.services, d);
  }

  /**
   * ReplaceConfigureOptions<TOptions>(configurer): afterwards exactly one
   * IConfigureOptions<TOptions> is registered, last, and it is the new
   * configurer; other types keep their registrations, in order.
   */
  lemma ReplaceConfigureOptionsEffect(st: BuildState, options: Ty, configurer: nat)
    ensures var r := Apply(st, ReplaceConfigureOptions(options, configurer));
      r.Ok?
      && var s := r.value.services;
      |s| > 0 && s[|s| - 1] == InstanceDescriptor(ConfigureOptionsOf(options), ConfigureOptionsObj(options, configurer))
      && Count(s, OfServiceType(ConfigureOptionsOf(options))) == 1
      && Filter(s, Not(OfServiceType(ConfigureOptionsOf(options)))) == Filter(st.services, Not(OfServiceType(ConfigureOptionsOf(options))))
  {
    var p := OfServiceType(ConfigureOptionsOf(options));
    var d := InstanceDescriptor(ConfigureOptionsOf(options), ConfigureOptionsObj(options, configurer));
    assert Apply(st, ReplaceConfigureOptions(options, configurer)) == Ok(st.(services := Filter(st.services, Not(p)) + [d]));
    FilterOutThenAppend(st.services, p, d);
  }

  /** RemoveAll<TService>() and RemoveAll(serviceType): no registration of the type is left, and all others stay, in order. */
  lemma RemoveAllOfTypeEffect(st: BuildState, t: Ty)
    ensures var r := Apply(st, RemoveAllOfType(t));
      r.Ok?
      && Count(r.value.services, OfServiceType(t)) == 0
      && r.value.services == Filter(st.services, Not(OfServiceType(t)))
      && |r.value.services| == |st.services| - Count(st.services, OfServiceType(t))
  {
    var s := Apply(st, RemoveAllOfType(t)).value.services;
    FilterNone(s, OfServiceType(t));
    FilterPartition(st.services, OfServiceType(t));
  }

  /**
   * RemoveAllBy(condition): nothing satisfying the condition is left, and
   * every other registration stays, in order.
   */
  lemma RemoveAllByEffect(st: BuildState, condition: Descriptor -> bool)
    ensures var r := Apply(st, RemoveAllBy(condition));
      r.Ok?
      && (forall d :: d in r.value.services ==> !condition(d))
      && (forall d :: d in st.services && !condition(d) ==> d in r.value.services)
      && |r.value.services| == |st.services| - Count(st.services, condition)
      && r.value.services == Filter(st.services, Not(condition))
      && forall d :: multiset(r.value.services)[d] == if condition(d) then 0 else multiset(st.services)[d]
  {
    assert Apply(st, RemoveAllBy(condition)) == Ok(st.(services := Filter(st.services, Not(condition))));
    FilterPartition(st.services, condition);
    FilterMultiplicity(st.services, Not(condition));
  }

  /**
   * RemoveSingleBy(condition): fails with InvalidOperationException unless
   * exactly one registration satisfies the condition, and otherwise removes
   * that one and keeps all others, in order.
   */
  lemma RemoveSingleByEffect(st: BuildState, condition: Descriptor -> bool)
    ensures var r := Apply(st, RemoveSingleBy(condition));
      (r.Ok? <==> Count(st.services, condition) == 1)
      && (r.Err? ==> r.failure == InvalidOperation)
      && (r.Ok? ==> r.value.services == Filter(st.services, Not(condition)))
  {
    if Count(st.services, condition) == 1 {
      RemoveSingleMatch(st.services, condition);
      assert Apply(st, RemoveSingleBy(condition)) == Ok(st.(services := Filter(st.services, Not(condition))));
    }
  }

  /** Removing the only match of `p` leaves exactly the elements `p` rejects. */
  lemma RemoveSingleMatch(s: seq<Descriptor>, p: Descriptor -> bool)
    requires Count(s, p) == 1
    ensures Remove(s, Single(s, p).value) == Filter(s, Not(p))
  {
    var matching := Filter(s, p);
    assert matching[0] in matching;
    assert Single(s, p).value == matching[0];
    RemoveMatchingHead(s, p);
    var r := Remove(s, matching[0]);
    FilterNone(matching[1..], p);
    assert Filter(r, p) == [];
    assert forall e :: e in r ==> Not(p)(e);
    FilterAll(r, Not(p));
  }

  /**
   * Removing the first registration `p` accepts, if any: exactly one
   * accepted registration goes when there was one, nothing changes when
   * there was none, and every other registration stays, in order.
   */
  predicate RemovedFirstMatch(before: seq<Descriptor>, after: seq<Descriptor>, p: Descriptor -> bool) {
    && Count(after, p) == (if exists d :: d in before && p(d) then Count(before, p) - 1 else Count(before, p))
    && Filter(after, Not(p)) == Filter(before, Not(p))
    && ((forall d :: d in before ==> !p(d)) ==> after == before)
  }

  lemma RemoveFoundEffect(s: seq<Descriptor>, p: Descriptor -> bool)
    ensures FirstOrDefault(s, p).Some? ==> RemovedFirstMatch(s, Remove(s, FirstOrDefault(s, p).value), p)
    ensures FirstOrDefault(s, p).None? ==> RemovedFirstMatch(s, s, p)
  {
    RemoveFirstCounts(s, p);
    if FirstOrDefault(s, p).Some? {
      RemoveFound(s, p);
    } else {
      assert FirstIndex(s, p).None?;
    }
  }

  /** Remove(serviceType, implementationType): removes at most the first registration of that pair. */
  lemma RemoveImplementationEffect(st: BuildState, service: Ty, implementation: Ty)
    ensures var r := Apply(st, RemoveImplementation(service, implementation));
      r.Ok? && RemovedFirstMatch(st.services, r.value.services, ImplementedBy(service, implementation))
  {
    RemoveFoundEffect(st.services, ImplementedBy(service, implementation));
  }

  /** DisableOptionDataAnnotationValidation<TOptions>(): removes at most the first data-annotation validator of TOptions. */
  lemma DisableOptionDataAnnotationValidationEffect(st: BuildState, options: Ty)
    ensures var r := Apply(st, DisableOptionDataAnnotationValidation(options));
      r.Ok? && RemovedFirstMatch(st.services, r.value.services, IsDataAnnotationValidator(options))
  {
    RemoveFoundEffect(st.services, IsDataAnnotationValidator(options));
  }

  /**
   * DisableStartupFilter<TFilter>(): fails with InvalidOperationException when
   * no registration has TFilter as implementation type or instance type, and
   * otherwise removes only the first one.
   */
  lemma DisableStartupFilterEffect(st: BuildState, filter: Ty)
    ensures var r := Apply(st, DisableStartupFilter(filter));
      (r.Err? <==> forall d :: d in st.services ==> !IsStartupFilter(filter)(d))
      && (r.Err? ==> r.failure == InvalidOperation)
      && (r.Ok? ==> RemovedFirstMatch(st.services, r.value.services, IsStartupFilter(filter)))
  {
    RemoveFoundEffect(st.services, IsStartupFilter(filter));
  }

  /**
   * ReplaceNamedConfigureOptions<TOptions>(name, configurer): afterwards the
   * only named configurer of TOptions called `name` is the new one, last;
   * every other registration, including configurers of other names, stays,
   * in order.
   */
  lemma ReplaceNamedConfigureOptionsEffect(st: BuildState, options: Ty, name: string, configurer: nat)
    ensures var r := Apply(st, ReplaceNamedConfigureOptions(options, name, configurer));
      r.Ok?
      && var s := r.value.services;
      |s| > 0 && s[|s| - 1] == InstanceDescriptor(ConfigureOptionsOf(options), ConfigureNamedOptionsObj(options, name, configurer))
      && Filter(s, IsNamedConfigurer(options, name)) == [s[|s| - 1]]
      && Filter(s, Not(IsNamedConfigurer(options, name))) == Filter(st.services, Not(IsNamedConfigurer(options, name)))
  {
    var p := IsNamedConfigurer(options, name);
    var d := InstanceDescriptor(ConfigureOptionsOf(options), ConfigureNamedOptionsObj(options, name, configurer));
    assert Apply(st, ReplaceNamedConfigureOptions(options, name, configurer)) == Ok(st.(services := Filter(st.services, Not(p)) + [d]));
    FilterOutThenAppend(st.services, p, d);
  }

  /**
   * The authentication-handler handler: fails with InvalidOperationException
   * when no IConfigureOptions<AuthenticationOptions> is registered or the
   * named scheme does not exist; otherwise every scheme is kept, with its
   * name, unpicked schemes are untouched and picked ones serve the new
   * handler type.
   */
  lemma ReplaceAuthenticationHandlerEffect(st: BuildState, picker: SchemePicker, replacement: HandlerReplacement, validateScheme: Option<string>)
    ensures var r := Apply(st, ReplaceAuthenticationHandler(picker, replacement, validateScheme));
      ((forall d :: d in st.services ==> d.serviceType != AuthenticationConfigurer) ==> r == Err(InvalidOperation))
      && (validateScheme.Some? && (forall b :: b in st.authentication.schemes ==> b.name != validateScheme.value) ==> r == Err(InvalidOperation))
      && (r.Err? && !replacement.FakeHandler? ==> r.failure == InvalidOperation)
      && (!replacement.FakeHandler?
          && (exists d :: d in st.services && d.serviceType == AuthenticationConfigurer)
          && (validateScheme.None? || exists b :: b in st.authentication.schemes && b.name == validateScheme.value)
          ==> r.Ok?)
      && (r.Ok? ==>
            r.value.authentication.defaultScheme == st.authentication.defaultScheme
            && |r.value.authentication.schemes| == |st.authentication.schemes|
            && forall i :: 0 <= i < |st.authentication.schemes| ==>
                 RewrittenAs(picker, replacement, st.authentication.defaultScheme, st.authentication.schemes[i], r.value.authentication.schemes[i]))
  {
    RewriteSchemesShape(picker, replacement, st.authentication.defaultScheme, st.services, st.authentication.schemes);
    RewriteSchemesFailure(picker, replacement, st.authentication.defaultScheme, st.services, st.authentication.schemes);
  }
}
