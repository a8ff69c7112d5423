/**
 * The scheme-level part of AuthenticationHandlerHelper: the scheme name
 * validator, the scheme pickers, the synthesis of a fake handler type, and
 * the loop that rewrites the handler type of every picked scheme together
 * with the service collection.
 */
module AuthenticationSchemes {
  import opened Types
  import opened DependencyInjection

  /** An `AuthenticationSchemeBuilder`: a scheme name and the handler type serving it. */
  datatype SchemeBuilder = SchemeBuilder(name: string, handlerType: Ty)

  /** `AuthenticationOptions` as far as the rewrite reads it. */
  datatype AuthenticationOptions = AuthenticationOptions(defaultScheme: Option<string>, schemes: seq<SchemeBuilder>)

  /** The names of the registered schemes, in registration order. */
  function SchemeNames(options: AuthenticationOptions): (names: seq<string>)
    ensures |names| == |options.schemes|
    ensures forall i :: 0 <= i < |names| ==> names[i] == options.schemes[i].name
  {
    seq(|options.schemes|, i requires 0 <= i < |options.schemes| => options.schemes[i].name)
  }

  /**
   * The validator `GenerateSchemeNameValidator(schemeName)` builds: it raises
   * InvalidOperationException unless some registered scheme has that name.
   */
  function ValidateSchemeName(schemeName: string, options: AuthenticationOptions): (r: Outcome)
    ensures r == Pass <==> exists b :: b in options.schemes && b.name == schemeName
    ensures r.Raise? ==> r.failure == InvalidOperation
  {
    if schemeName in SchemeNames(options) then Pass
    else
      assert forall b :: b in options.schemes ==> b.name in SchemeNames(options);
      Raise(InvalidOperation)
  }

  /** The scheme pickers the public entry points pass. */
  datatype SchemePicker =
    | SchemeNamed(scheme: string)   // picks the schemes with that name
    | DefaultScheme                 // picks the scheme named as the default scheme

  predicate Picks(picker: SchemePicker, defaultScheme: Option<string>, b: SchemeBuilder) {
    match picker
    case SchemeNamed(scheme) => b.name == scheme
    case DefaultScheme => defaultScheme == Some(b.name)
  }

  /**
   * `MakeFakeHandlerType`: a handler that is already a
   * FakeAuthenticationHandler<TOptions> is kept; otherwise the handler's base
   * type must be AuthenticationHandler<TOptions>, and the result is
   * FakeAuthenticationHandler<TOptions>. A handler without a base type
   * dereferences null; any other base type raises InvalidOperationException.
   */
  function MakeFakeHandlerType(handlerType: Ty): (r: Result<Ty>)
    ensures r.Ok? ==> r.value.FakeAuthenticationHandlerOf?
    ensures handlerType.FakeAuthenticationHandlerOf? ==> r == Ok(handlerType)
    ensures !handlerType.FakeAuthenticationHandlerOf? ==>
      match BaseType(handlerType)
      case None => r == Err(NullReference)
      case Some(b) => r == if b.AuthenticationHandlerOf? then Ok(FakeAuthenticationHandlerOf(b.options)) else Err(InvalidOperation)
  {
    if handlerType.FakeAuthenticationHandlerOf? then Ok(handlerType)
    else match BaseType(handlerType)
      case None => Err(NullReference)
      case Some(b) =>
        if b.AuthenticationHandlerOf? then Ok(FakeAuthenticationHandlerOf(b.options)) else Err(InvalidOperation)
  }

  /** Synthesising a fake handler type twice gives the same type as once. */
  lemma MakeFakeHandlerTypeIdempotent(handlerType: Ty)
    ensures MakeFakeHandlerType(handlerType).Ok? ==>
      MakeFakeHandlerType(MakeFakeHandlerType(handlerType).value) == MakeFakeHandlerType(handlerType)
  {
  }

  /** A handler derived directly from AuthenticationHandler<TOptions> gets the fake handler for the same TOptions. */
  lemma MakeFakeHandlerTypeKeepsOptions(id: nat, options: Ty)
    ensures MakeFakeHandlerType(Class(id, AuthenticationHandlerOf(options))) == Ok(FakeAuthenticationHandlerOf(options))
  {
  }

  /** What replaces a picked scheme's handler. */
  datatype HandlerReplacement =
    | HandlerOfType(handler: Ty, lifetime: Lifetime)               // THandler registered by type
    | HandlerInstance(handler: Ty, instance: Obj)                  // a given handler instance
    | HandlerFactory(handler: Ty, factory: nat, lifetime: Lifetime) // handlers made by a given factory
    | FakeHandler(result: AuthenticateResult)                      // FakeAuthentication before the client exists

  /** The descriptor the `handlerType` callback produces for scheme `b`. */
  function NewDescriptor(replacement: HandlerReplacement, b: SchemeBuilder): (r: Result<Descriptor>)
    ensures replacement.FakeHandler? ==> r.Ok? == MakeFakeHandlerType(b.handlerType).Ok?
    ensures !replacement.FakeHandler? ==> r.Ok? && r.value.serviceType == replacement.handler
    ensures r.Ok? && replacement.FakeHandler? ==>
      r.value == Descriptor(MakeFakeHandlerType(b.handlerType).value, ByType(MakeFakeHandlerType(b.handlerType).value), Singleton)
  {
    match replacement
    case HandlerOfType(h, lifetime) => Ok(Descriptor(h, ByType(h), lifetime))
    case HandlerInstance(h, instance) => Ok(InstanceDescriptor(h, instance))
    case HandlerFactory(h, factory, lifetime) => Ok(Descriptor(h, ByFactory(AppFactory(factory)), lifetime))
    case FakeHandler(_) =>
      match MakeFakeHandlerType(b.handlerType)
      case Err(f) => Err(f)
      case Ok(fake) => Ok(Descriptor(fake, ByType(fake), Singleton))
  }

  /**
   * The `postProcess` step. Only FakeAuthentication passes one: it resolves a
   * handler of `handlerType`, stores the result in it, removes every
   * registration of `handlerType` and registers that handler instance instead.
   */
  function PostProcess(replacement: HandlerReplacement, services: seq<Descriptor>, handlerType: Ty): (r: seq<Descriptor>)
    ensures !replacement.FakeHandler? ==> r == services
    ensures replacement.FakeHandler? ==>
      |r| > 0 && r[|r| - 1] == InstanceDescriptor(handlerType, FakeHandlerObj(handlerType, replacement.result))
      && r[..|r| - 1] == RemoveAll(services, handlerType)
  {
    match replacement
    case FakeHandler(result) => RemoveAll(services, handlerType) + [InstanceDescriptor(handlerType, FakeHandlerObj(handlerType, result))]
    case _ => services
  }

  /** One pass of the loop body for a picked scheme: the new collection and the rewritten scheme. */
  datatype Rewritten = Rewritten(services: seq<Descriptor>, schemes: seq<SchemeBuilder>)

  function RewriteScheme(replacement: HandlerReplacement, services: seq<Descriptor>, b: SchemeBuilder): (r: Result<(seq<Descriptor>, SchemeBuilder)>)
  {
    var removed := RemoveAll(services, b.handlerType);
    match NewDescriptor(replacement, b)
    case Err(f) => Err(f)
    case Ok(sd) =>
      var b' := b.(handlerType := sd.serviceType);
      Ok((PostProcess(replacement, removed + [sd], b'.handlerType), b'))
  }

  /** One iteration of the loop, applied to what the iterations before it produced. */
  function RewriteStep(picker: SchemePicker, replacement: HandlerReplacement, defaultScheme: Option<string>,
                       acc: Result<Rewritten>, b: SchemeBuilder): Result<Rewritten>
  {
    match acc
    case Err(f) => Err(f)
    case Ok(done) =>
      if !Picks(picker, defaultScheme, b) then Ok(Rewritten(done.services, done.schemes + [b]))
      else match RewriteScheme(replacement, done.services, b)
        case Err(f) => Err(f)
        case Ok((services', b')) => Ok(Rewritten(services', done.schemes + [b']))
  }

  /**
   * The effect of the loop over `schemes`, in order: unpicked schemes are
   * skipped, each picked one is rewritten against the collection left by the
   * schemes before it, and the first failure ends the loop.
   */
  function RewriteSchemes(picker: SchemePicker, replacement: HandlerReplacement, defaultScheme: Option<string>,
                          services: seq<Descriptor>, schemes: seq<SchemeBuilder>): Result<Rewritten>
  {
    if schemes == [] then Ok(Rewritten(services, []))
    else RewriteStep(picker, replacement, defaultScheme,
                     RewriteSchemes(picker, replacement, defaultScheme, services, schemes[..|schemes| - 1]),
                     schemes[|schemes| - 1])
  }

  /** The loop over `schemes[..n + 1]` is the loop over `schemes[..n]` followed by one more iteration. */
  lemma RewriteSchemesSnoc(picker: SchemePicker, replacement: HandlerReplacement, defaultScheme: Option<string>,
                           services: seq<Descriptor>, schemes: seq<SchemeBuilder>, n: nat)
    requires n < |schemes|
    ensures RewriteSchemes(picker, replacement, defaultScheme, services, schemes[..n + 1])
         == RewriteStep(picker, replacement, defaultScheme, RewriteSchemes(picker, replacement, defaultScheme, services, schemes[..n]), schemes[n])
  {
    PrefixOfPrefix(schemes, n, n + 1);
  }

  /** Once a prefix of the schemes fails, the whole loop fails the same way. */
  lemma {:induction false} RewriteSchemesFailureSticks(picker: SchemePicker, replacement: HandlerReplacement, defaultScheme: Option<string>,
                                                        services: seq<Descriptor>, schemes: seq<SchemeBuilder>, n: nat)
    requires n <= |schemes|
    requires RewriteSchemes(picker, replacement, defaultScheme, services, schemes[..n]).Err?
    ensures RewriteSchemes(picker, replacement, defaultScheme, services, schemes) == RewriteSchemes(picker, replacement, defaultScheme, services, schemes[..n])
    decreases |schemes| - n
  {
    if n == |schemes| {
      PrefixOfPrefix(schemes, n, n);
    } else {
      RewriteSchemesSnoc(picker, replacement, defaultScheme, services, schemes, n);
      RewriteSchemesFailureSticks(picker, replacement, defaultScheme, services, schemes, n + 1);
    }
  }

  /**
   * The loop over the registered schemes in ReplaceAuthenticationHandler:
   * each picked scheme's old handler type is removed from the collection, the
   * new descriptor is added, the scheme's HandlerType becomes that
   * descriptor's service type, and `postProcess` runs.
   */
  method ReplaceSchemeHandlers(picker: SchemePicker, replacement: HandlerReplacement, options: AuthenticationOptions,
                               services: seq<Descriptor>) returns (r: Result<Rewritten>)
    ensures r == RewriteSchemes(picker, replacement, options.defaultScheme, services, options.schemes)
  {
    var current := services;
    var rewritten: seq<SchemeBuilder> := [];
    var i := 0;
    while i < |options.schemes|
      invariant 0 <= i <= |options.schemes|
      invariant RewriteSchemes(picker, replacement, options.defaultScheme, services, options.schemes[..i]) == Ok(Rewritten(current, rewritten))
    {
      var b := options.schemes[i];
      RewriteSchemesSnoc(picker, replacement, options.defaultScheme, services, options.schemes, i);
      if Picks(picker, options.defaultScheme, b) {
        var before := current;
        current := RemoveAll(current, b.handlerType);
        var sd := NewDescriptor(replacement, b);
        if sd.Err? {
          RewriteSchemesFailureSticks(picker, replacement, options.defaultScheme, services, options.schemes, i + 1);
          return Err(sd.failure);
        }
        b := b.(handlerType := sd.value.serviceType);
        current := current + [sd.value];
        current := PostProcess(replacement, current, b.handlerType);
        assert RewriteScheme(replacement, before, options.schemes[i]) == Ok((current, b));
      }
      rewritten := rewritten + [b];
      i := i + 1;
    }
    PrefixOfPrefix(options.schemes, i, i);
    r := Ok(Rewritten(current, rewritten));
  }

  /**
   * How the loop leaves one scheme: its name is kept; unpicked, it is
   * unchanged; picked, its handler type is the service type of the
   * descriptor built for it.
   */
  predicate RewrittenAs(picker: SchemePicker, replacement: HandlerReplacement, defaultScheme: Option<string>,
                        before: SchemeBuilder, after: SchemeBuilder)
  {
    after.name == before.name
    && (!Picks(picker, defaultScheme, before) ==> after == before)
    && (Picks(picker, defaultScheme, before) ==>
          NewDescriptor(replacement, before).Ok? && after.handlerType == NewDescriptor(replacement, before).value.serviceType)
  }

  /** One iteration keeps the schemes before it and appends the scheme it handled, rewritten as specified. */
  lemma RewriteStepShape(picker: SchemePicker, replacement: HandlerReplacement, defaultScheme: Option<string>,
                         acc: Result<Rewritten>, b: SchemeBuilder)
    ensures var r := RewriteStep(picker, replacement, defaultScheme, acc, b);
      r.Ok? ==>
        acc.Ok? && |r.value.schemes| == |acc.value.schemes| + 1
        && (forall i :: 0 <= i < |acc.value.schemes| ==> r.value.schemes[i] == acc.value.schemes[i])
        && RewrittenAs(picker, replacement, defaultScheme, b, r.value.schemes[|acc.value.schemes|])
  {
  }

  /** The loop keeps every scheme, in order, and rewrites exactly the picked ones. */
  lemma {:induction false} RewriteSchemesShape(picker: SchemePicker, replacement: HandlerReplacement, defaultScheme: Option<string>,
                                               services: seq<Descriptor>, schemes: seq<SchemeBuilder>)
    ensures var r := RewriteSchemes(picker, replacement, defaultScheme, services, schemes);
      r.Ok? ==>
        |r.value.schemes| == |schemes|
        && forall i :: 0 <= i < |schemes| ==> RewrittenAs(picker, replacement, defaultScheme, schemes[i], r.value.schemes[i])
  {
    if schemes != [] {
      var n := |schemes| - 1;
      var init := schemes[..n];
      RewriteSchemesShape(picker, replacement, defaultScheme, services, init);
      var prev := RewriteSchemes(picker, replacement, defaultScheme, services, init);
      RewriteStepShape(picker, replacement, defaultScheme, prev, schemes[n]);
      var r := RewriteSchemes(picker, replacement, defaultScheme, services, schemes);
      assert r == RewriteStep(picker, replacement, defaultScheme, prev, schemes[n]);
      if r.Ok? {
        forall i | 0 <= i < n
          ensures RewrittenAs(picker, replacement, defaultScheme, schemes[i], r.value.schemes[i])
        {
          assert schemes[i] == init[i];
        }
      }
    }
  }

  /** When no scheme is picked, neither the schemes nor the collection change. */
  lemma {:induction false} RewriteSchemesNothingPicked(picker: SchemePicker, replacement: HandlerReplacement, defaultScheme: Option<string>,
                                                       services: seq<Descriptor>, schemes: seq<SchemeBuilder>)
    requires forall b :: b in schemes ==> !Picks(picker, defaultScheme, b)
    ensures RewriteSchemes(picker, replacement, defaultScheme, services, schemes) == Ok(Rewritten(services, schemes))
  {
    if schemes != [] {
      var init := schemes[..|schemes| - 1];
      assert forall b :: b in init ==> b in schemes;
      RewriteSchemesNothingPicked(picker, replacement, defaultScheme, services, init);
      InitLast(schemes);
    }
  }

  /** Only the fake replacement can fail, and only when a picked scheme's handler type cannot be made fake. */
  lemma {:induction false} RewriteSchemesFailure(picker: SchemePicker, replacement: HandlerReplacement, defaultScheme: Option<string>,
                                                 services: seq<Descriptor>, schemes: seq<SchemeBuilder>)
    ensures RewriteSchemes(picker, replacement, defaultScheme, services, schemes).Err? ==>
      replacement.FakeHandler?
    ensures !replacement.FakeHandler? ==> RewriteSchemes(picker, replacement, defaultScheme, services, schemes).Ok?
  {
    if schemes != [] {
      RewriteSchemesFailure(picker, replacement, defaultScheme, services, schemes[..|schemes| - 1]);
    }
  }

  /**
   * Rewriting one picked scheme with a handler given by type, instance or
   * factory leaves no registration of the old handler type except the new
   * one when the types coincide, ends with the new descriptor, and keeps
   * every other registration in order.
   */
  lemma RewriteSchemeRegistrations(replacement: HandlerReplacement, services: seq<Descriptor>, b: SchemeBuilder)
    requires !replacement.FakeHandler?
    ensures var r := RewriteScheme(replacement, services, b);
      r.Ok?
      && r.value.1 == b.(handlerType := replacement.handler)
      && |r.value.0| > 0
      && r.value.0[|r.value.0| - 1] == NewDescriptor(replacement, b).value
      && r.value.0[..|r.value.0| - 1] == Filter(services, Not(OfServiceType(b.handlerType)))
  {
    var r := RewriteScheme(replacement, services, b);
    assert r.value.0 == RemoveAll(services, b.handlerType) + [NewDescriptor(replacement, b).value];
  }

  /**
   * Rewriting one picked scheme with the fake handler leaves exactly one
   * registration of the fake type, a singleton instance holding the result,
   * at the end of the collection; registrations of other types than the old
   * and the fake handler type keep their order.
   */
  lemma RewriteSchemeFake(result: AuthenticateResult, services: seq<Descriptor>, b: SchemeBuilder)
    requires MakeFakeHandlerType(b.handlerType).Ok?
    ensures var fake := MakeFakeHandlerType(b.handlerType).value;
      var r := RewriteScheme(FakeHandler(result), services, b);
      r.Ok?
      && r.value.1 == b.(handlerType := fake)
      && |r.value.0| > 0
      && r.value.0[|r.value.0| - 1] == InstanceDescriptor(fake, FakeHandlerObj(fake, result))
      && (forall d :: d in r.value.0[..|r.value.0| - 1] ==> d.serviceType != fake && d.serviceType != b.handlerType)
      && (forall d :: d in services && d.serviceType != fake && d.serviceType != b.handlerType ==> d in r.value.0)
  {
    var fake := MakeFakeHandlerType(b.handlerType).value;
    var sd := NewDescriptor(FakeHandler(result), b).value;
    var removed := RemoveAll(services, b.handlerType);
    var r := RewriteScheme(FakeHandler(result), services, b);
    assert r.value.0 == PostProcess(FakeHandler(result), removed + [sd], fake);
    assert r.value.0[..|r.value.0| - 1] == RemoveAll(removed + [sd], fake);
    forall d | d in r.value.0[..|r.value.0| - 1]
      ensures d.serviceType != b.handlerType
    {
      assert d in removed + [sd];
    }
  }
}
