/**
 * `FakeAuthenticationHandler<TOptions>`: an authentication handler whose
 * authenticate result is whatever a test last stored in it, and whose
 * challenge and forbid answers are the bare status codes.
 */
module FakeAuthenticationHandlers {
  import opened Types

  /** The status code of the current request's response, the only part of the context the handler touches. */
  class HttpContext {
    var statusCode: int

    constructor(statusCode: int)
      ensures this.statusCode == statusCode
    {
      this.statusCode := statusCode;
    }
  }

  const ChallengeStatusCode: int := 401
  const ForbidStatusCode: int := 403

  class FakeAuthenticationHandler {
    /** TOptions; the handler's own type is FakeAuthenticationHandlerOf(options). */
    const options: Ty
    /** The stored result; None until a result is set. */
    var authenticateResult: Option<AuthenticateResult>
    /** The name of the scheme the handler was initialised for; None until InitializeAsync. */
    var scheme: Option<string>
    var context: HttpContext?

    constructor(options: Ty)
      ensures this.options == options
      ensures authenticateResult == None && scheme == None && context == null
    {
      this.options := options;
      authenticateResult := None;
      scheme := None;
      context := null;
    }

    function HandlerType(): (t: Ty)
      ensures t.FakeAuthenticationHandlerOf? && t.options == options
    {
      FakeAuthenticationHandlerOf(options)
    }

    /** `SetResult(result)`: only the stored result changes. */
    method SetResult(result: AuthenticateResult)
      modifies this
      ensures authenticateResult == Some(result)
      ensures scheme == old(scheme) && context == old(context)
    {
      authenticateResult := Some(result);
    }

    /**
     * `SetSuccess(principal)`: a success ticket for the principal under the
     * initialised scheme's name; before initialisation the scheme is null
     * and reading its name raises NullReferenceException, storing nothing.
     */
    method SetSuccess(principal: nat) returns (o: Outcome)
      modifies this
      ensures scheme == old(scheme) && context == old(context)
      ensures old(scheme).None? ==> o == Raise(NullReference) && authenticateResult == old(authenticateResult)
      ensures old(scheme).Some? ==>
        o == Pass && authenticateResult == Some(Success(principal, old(scheme).value))
    {
      if scheme.None? {
        return Raise(NullReference);
      }
      authenticateResult := Some(Success(principal, scheme.value));
      o := Pass;
    }

    /** `SetFail(exception)`. */
    method SetFailWithException(exception: nat)
      modifies this
      ensures authenticateResult == Some(FailWithException(exception))
      ensures scheme == old(scheme) && context == old(context)
    {
      authenticateResult := Some(FailWithException(exception));
    }

    /** `SetFail(message)`. */
    method SetFailWithMessage(message: string)
      modifies this
      ensures authenticateResult == Some(FailWithMessage(message))
      ensures scheme == old(scheme) && context == old(context)
    {
      authenticateResult := Some(FailWithMessage(message));
    }

    /** `AuthenticateAsync()`: a completed task holding the stored result (None when nothing was stored). */
    method AuthenticateAsync() returns (r: Option<AuthenticateResult>)
      ensures r == authenticateResult
    {
      r := authenticateResult;
    }

    /**
     * `ChallengeAsync(properties)`: the response status becomes 401; without
     * a context (before InitializeAsync) the access raises NullReferenceException.
     */
    method ChallengeAsync() returns (o: Outcome)
      modifies context
      ensures context == null ==> o == Raise(NullReference)
      ensures context != null ==> o == Pass && context.statusCode == ChallengeStatusCode
      ensures authenticateResult == old(authenticateResult) && scheme == old(scheme)
    {
      if context == null {
        return Raise(NullReference);
      }
      context.statusCode := ChallengeStatusCode;
      o := Pass;
    }

    /** `ForbidAsync(properties)`: as ChallengeAsync, with status 403. */
    method ForbidAsync() returns (o: Outcome)
      modifies context
      ensures context == null ==> o == Raise(NullReference)
      ensures context != null ==> o == Pass && context.statusCode == ForbidStatusCode
      ensures authenticateResult == old(authenticateResult) && scheme == old(scheme)
    {
      if context == null {
        return Raise(NullReference);
      }
      context.statusCode := ForbidStatusCode;
      o := Pass;
    }

    /** `InitializeAsync(scheme, context)`: stores both; the stored result is kept. */
    method InitializeAsync(scheme: Option<string>, context: HttpContext?)
      modifies this
      ensures this.scheme == scheme && this.context == context
      ensures authenticateResult == old(authenticateResult)
    {
      this.scheme := scheme;
      this.context := context;
    }
  }

  /**
   * A handler initialised for a scheme and told to succeed authenticates
   * the principal under that scheme's name; challenged, it answers 401 and
   * still reports the same result.
   */
  method AuthenticateAfterSetup(h: FakeAuthenticationHandler, schemeName: string, ctx: HttpContext, principal: nat)
    returns (first: Option<AuthenticateResult>, status: int, second: Option<AuthenticateResult>)
    modifies h, ctx
    ensures first == Some(Success(principal, schemeName))
    ensures status == ChallengeStatusCode
    ensures second == first
  {
    h.InitializeAsync(Some(schemeName), ctx);
    var o := h.SetSuccess(principal);
    first := h.AuthenticateAsync();
    o := h.ChallengeAsync();
    status := ctx.statusCode;
    second := h.AuthenticateAsync();
  }
}
