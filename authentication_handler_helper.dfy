/**
 * The public entry points of AuthenticationHandlerHelper on the base
 * facade: replacing the handler of a named scheme, and faking
 * authentication either before the client exists (a deferred rewrite of
 * the schemes) or after (storing the result in the live fake handler).
 */
module AuthenticationHandlerHelper {
  import opened Types
  import opened DependencyInjection
  import opened AuthenticationSchemes
  import opened TestServices
  import opened SystemUnderTestBase
  import opened FakeAuthenticationHandlers

  /** `ReplaceAuthenticationHandler<THandler>(scheme, lifetime)`: THandler, registered by type, serves the named scheme. */
  method ReplaceAuthenticationHandlerOfType(sut: SystemUnderTest, scheme: string, handler: Ty, lifetime: Lifetime) returns (o: Outcome)
    requires sut.Valid()
    modifies sut
    ensures sut.Valid()
    ensures sut.TestServiceAppended(ReplaceAuthenticationHandler(SchemeNamed(scheme), HandlerOfType(handler, lifetime), Some(scheme)), o)
  {
    o := sut.ConfigureTestServices(ReplaceAuthenticationHandler(SchemeNamed(scheme), HandlerOfType(handler, lifetime), Some(scheme)));
  }

  /** `ReplaceAuthenticationHandler<THandler>(scheme, handler)`: the given handler instance serves the named scheme. */
  method ReplaceAuthenticationHandlerInstance(sut: SystemUnderTest, scheme: string, handler: Ty, instance: Obj) returns (o: Outcome)
    requires sut.Valid()
    modifies sut
    ensures sut.Valid()
    ensures sut.TestServiceAppended(ReplaceAuthenticationHandler(SchemeNamed(scheme), HandlerInstance(handler, instance), Some(scheme)), o)
  {
    o := sut.ConfigureTestServices(ReplaceAuthenticationHandler(SchemeNamed(scheme), HandlerInstance(handler, instance), Some(scheme)));
  }

  /** `ReplaceAuthenticationHandler<THandler>(scheme, factory, lifetime)`: handlers made by the factory serve the named scheme. */
  method ReplaceAuthenticationHandlerFactory(sut: SystemUnderTest, scheme: string, handler: Ty, factory: nat, lifetime: Lifetime) returns (o: Outcome)
    requires sut.Valid()
    modifies sut
    ensures sut.Valid()
    ensures sut.TestServiceAppended(ReplaceAuthenticationHandler(SchemeNamed(scheme), HandlerFactory(handler, factory, lifetime), Some(scheme)), o)
  {
    o := sut.ConfigureTestServices(ReplaceAuthenticationHandler(SchemeNamed(scheme), HandlerFactory(handler, factory, lifetime), Some(scheme)));
  }

  /** The position of the first scheme the picker selects, if any. */
  function FirstPicked(picker: SchemePicker, defaultScheme: Option<string>, schemes: seq<SchemeBuilder>): (r: Option<nat>)
    ensures r.Some? ==> r.value < |schemes| && Picks(picker, defaultScheme, schemes[r.value])
                        && forall j :: 0 <= j < r.value ==> !Picks(picker, defaultScheme, schemes[j])
    ensures r.None? <==> forall j :: 0 <= j < |schemes| ==> !Picks(picker, defaultScheme, schemes[j])
  {
    if schemes == [] then None
    else if Picks(picker, defaultScheme, schemes[0]) then Some(0)
    else match FirstPicked(picker, defaultScheme, schemes[1..])
      case None => None
      case Some(i) => Some(i + 1)
  }

  /**
   * The handler type FakeAuthentication stores its result in once the
   * client exists: the options must be resolvable, the first scheme the
   * picker selects is taken (none raises InvalidOperationException), and
   * its handler type is made fake.
   */
  function FakeHandlerTarget(picker: SchemePicker, options: Option<AuthenticationOptions>): (r: Result<Ty>)
    ensures options.None? ==> r == Err(InvalidOperation)
    ensures options.Some? && (forall b :: b in options.value.schemes ==> !Picks(picker, options.value.defaultScheme, b)) ==>
      r == Err(InvalidOperation)
    ensures r.Ok? ==>
      && r.value.FakeAuthenticationHandlerOf?
      && options.Some?
      && exists i :: 0 <= i < |options.value.schemes|
           && Picks(picker, options.value.defaultScheme, options.value.schemes[i])
           && (forall j :: 0 <= j < i ==> !Picks(picker, options.value.defaultScheme, options.value.schemes[j]))
           && MakeFakeHandlerType(options.value.schemes[i].handlerType) == Ok(r.value)
    ensures r.Err? ==> r.failure == InvalidOperation || r.failure == NullReference
    ensures options.Some? ==>
      forall i :: 0 <= i < |options.value.schemes|
        && Picks(picker, options.value.defaultScheme, options.value.schemes[i])
        && (forall j :: 0 <= j < i ==> !Picks(picker, options.value.defaultScheme, options.value.schemes[j]))
        ==> r == MakeFakeHandlerType(options.value.schemes[i].handlerType)
  {
    match options
    case None => Err(InvalidOperation)
    case Some(opts) =>
      match FirstPicked(picker, opts.defaultScheme, opts.schemes)
      case None =>
        assert forall b :: b in opts.schemes ==> !Picks(picker, opts.defaultScheme, b);
        Err(InvalidOperation)
      case Some(i) => MakeFakeHandlerType(opts.schemes[i].handlerType)
  }

  /** Two scheme lists that agree on which positions the picker selects have the same first pick. */
  lemma FirstPickedAgrees(picker: SchemePicker, defaultScheme: Option<string>, a: seq<SchemeBuilder>, b: seq<SchemeBuilder>)
    requires |a| == |b|
    requires forall i :: 0 <= i < |a| ==> Picks(picker, defaultScheme, a[i]) == Picks(picker, defaultScheme, b[i])
    ensures FirstPicked(picker, defaultScheme, a) == FirstPicked(picker, defaultScheme, b)
  {
    var ra := FirstPicked(picker, defaultScheme, a);
    var rb := FirstPicked(picker, defaultScheme, b);
    if ra.Some? && rb.Some? {
      assert !(ra.value < rb.value) && !(rb.value < ra.value);
    }
  }

  /**
   * After a build in which FakeAuthentication rewrote the schemes, calling
   * it again with the same picker targets the fake handler type that the
   * first picked scheme was given, which is the one registered with the
   * stored result, because the rewrite keeps scheme names and a fake
   * handler type stays fake.
   */
  lemma FakeTargetAfterRewrite(st: BuildState, picker: SchemePicker, result: AuthenticateResult, validateScheme: Option<string>)
    requires Apply(st, ReplaceAuthenticationHandler(picker, FakeHandler(result), validateScheme)).Ok?
    ensures var st' := Apply(st, ReplaceAuthenticationHandler(picker, FakeHandler(result), validateScheme)).value;
      var first := FirstPicked(picker, st.authentication.defaultScheme, st.authentication.schemes);
      (first.None? ==> FakeHandlerTarget(picker, Some(st'.authentication)) == Err(InvalidOperation))
      && (first.Some? ==>
            MakeFakeHandlerType(st.authentication.schemes[first.value].handlerType).Ok?
            && FakeHandlerTarget(picker, Some(st'.authentication)) == MakeFakeHandlerType(st.authentication.schemes[first.value].handlerType))
  {
    var st' := Apply(st, ReplaceAuthenticationHandler(picker, FakeHandler(result), validateScheme)).value;
    ReplaceAuthenticationHandlerEffect(st, picker, FakeHandler(result), validateScheme);
    var before := st.authentication.schemes;
    var after := st'.authentication.schemes;
    var d := st.authentication.defaultScheme;
    assert forall i :: 0 <= i < |before| ==> RewrittenAs(picker, FakeHandler(result), d, before[i], after[i]);
    FirstPickedAgrees(picker, d, before, after);
    var first := FirstPicked(picker, d, before);
    if first.Some? {
      var i := first.value;
      assert RewrittenAs(picker, FakeHandler(result), d, before[i], after[i]);
      MakeFakeHandlerTypeIdempotent(before[i].handlerType);
    }
  }

  /**
   * What FakeAuthentication does: before the client exists it defers a
   * rewrite that gives every picked scheme a fake handler holding the
   * result; afterwards it stores the result in the live fake handler of
   * the first picked scheme, which the built provider resolves from
   * `handlers`. The scheme-name validation is only part of the deferred path.
   */
  twostate predicate FakeAuthenticated(sut: SystemUnderTest, picker: SchemePicker, result: AuthenticateResult, validateScheme: Option<string>,
                                       options: Option<AuthenticationOptions>, handlers: map<Ty, FakeAuthenticationHandler>, o: Outcome)
    reads sut, handlers.Values
  {
    && (old(sut.serviceProvider).None? ==>
          sut.TestServiceAppended(ReplaceAuthenticationHandler(picker, FakeHandler(result), validateScheme), o)
          && forall h :: h in handlers.Values ==> unchanged(h))
    && (old(sut.serviceProvider).Some? ==>
          unchanged(sut)
          && match FakeHandlerTarget(picker, options)
             case Err(f) => o == Raise(f) && forall h :: h in handlers.Values ==> unchanged(h)
             case Ok(t) =>
               if t !in handlers then o == Raise(InvalidOperation) && forall h :: h in handlers.Values ==> unchanged(h)
               else
                 && o == Pass
                 && handlers[t].authenticateResult == Some(result)
                 && handlers[t].scheme == old(handlers[t].scheme) && handlers[t].context == old(handlers[t].context)
                 && forall h :: h in handlers.Values && h != handlers[t] ==> unchanged(h))
  }

  /** The internal `FakeAuthentication(schemePicker, result, validateOptions)`. */
  method FakeAuthentication(sut: SystemUnderTest, picker: SchemePicker, result: AuthenticateResult, validateScheme: Option<string>,
                            options: Option<AuthenticationOptions>, handlers: map<Ty, FakeAuthenticationHandler>) returns (o: Outcome)
    requires sut.Valid()
    modifies sut, handlers.Values
    ensures sut.Valid()
    ensures FakeAuthenticated(sut, picker, result, validateScheme, options, handlers, o)
  {
    if sut.serviceProvider.None? {
      o := sut.ConfigureTestServices(ReplaceAuthenticationHandler(picker, FakeHandler(result), validateScheme));
      return;
    }
    var target := FakeHandlerTarget(picker, options);
    if target.Err? {
      return Raise(target.failure);
    }
    if target.value !in handlers {
      return Raise(InvalidOperation);
    }
    handlers[target.value].SetResult(result);
    o := Pass;
  }

  /** `FakeAuthentication(scheme, result)`: the named scheme, validated to exist before the build. */
  method FakeAuthenticationOfScheme(sut: SystemUnderTest, scheme: string, result: AuthenticateResult,
                                    options: Option<AuthenticationOptions>, handlers: map<Ty, FakeAuthenticationHandler>) returns (o: Outcome)
    requires sut.Valid()
    modifies sut, handlers.Values
    ensures sut.Valid()
    ensures FakeAuthenticated(sut, SchemeNamed(scheme), result, Some(scheme), options, handlers, o)
  {
    o := FakeAuthentication(sut, SchemeNamed(scheme), result, Some(scheme), options, handlers);
  }

  /** `FakeAuthentication(result)`: the default scheme, without validation. */
  method FakeAuthenticationOfDefault(sut: SystemUnderTest, result: AuthenticateResult,
                                     options: Option<AuthenticationOptions>, handlers: map<Ty, FakeAuthenticationHandler>) returns (o: Outcome)
    requires sut.Valid()
    modifies sut, handlers.Values
    ensures sut.Valid()
    ensures FakeAuthenticated(sut, DefaultScheme, result, None, options, handlers, o)
  {
    o := FakeAuthentication(sut, DefaultScheme, result, None, options, handlers);
  }
}
