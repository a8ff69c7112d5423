# EasyTesting facade model

A Dafny model of the registration-editing and lifecycle logic of the
EasyTesting integration-test facade for ASP.NET Core. The facade collects
deferred edits of an application's service registrations, host-builder
mutations and setup fixtures while no client exists, then replays them in a
fixed order when the first client is built. The model covers:

- the dependency registry as an ordered sequence of service descriptors, and
  the framework collection operations the facade relies on (`Replace`,
  `RemoveAll`, `TryAddSingleton`, `First`, `Single`, `FirstOrDefault`,
  `Remove`, `GetService`), each with a body and a contract;
- the facade `SystemUnderTest` as a class. Its provider and captured-collection
  fields, internal test-double registry and three append-only handler lists
  are updated by guarded configure methods. `UsingService*` and the verify
  methods need a built client;
- each deferred registry edit as a command datatype, its effect on the
  collection, and the replay that runs the handlers in subscription order;
- the verification methods over the captured collection;
- the authentication-handler rewrite loop, fake-handler type synthesis, pre-
  and post-build fake authentication, and the stateful fake handler;
- the Moq, FakeItEasy and NSubstitute extensions, which memoise one test
  double per type in the internal registry;
- the two older revisions, `SystemUnderTest<TStartup>` and
  `EasyIntergrationTester<TStartup>`, each as its own class.

Objects, mocks and providers are identities. Test actions are call records;
how an action ends is the parameter `run`.

## Model

| member | source | states |
|---|---|---|
| DependencyInjection.Filter | src/Wd3w.AspNetCore.EasyTesting/SystemUnderTestBase.cs:226-235 | a registration is kept exactly when it occurs and the predicate accepts it, and there are never more than before; FilterConcat, FilterSingleton and FilterMultiplicity state the order and the multiplicity |
| DependencyInjection.FilterConcat | src/Wd3w.AspNetCore.EasyTesting/SystemUnderTestBase.cs:226-235 | filtering distributes over concatenation: the kept registrations of a prefix come before those of the rest, so filtering keeps relative order |
| DependencyInjection.FilterSingleton | src/Wd3w.AspNetCore.EasyTesting/SystemUnderTestBase.cs:226-235 | a one-registration collection keeps its registration exactly when the predicate accepts it |
| DependencyInjection.FilterMultiplicity | src/Wd3w.AspNetCore.EasyTesting/SystemUnderTestBase.cs:226-235 | each accepted registration is kept exactly as many times as it occurs, each rejected one never |
| DependencyInjection.FilterPartition | src/Wd3w.AspNetCore.EasyTesting/SystemUnderTestBase.cs:226-235 | the accepted and the rejected registrations together are as many as the collection |
| DependencyInjection.First | src/Wd3w.AspNetCore.EasyTesting/Internal/ServiceCollectionHelper.cs:8-11 | the first registration the predicate accepts; InvalidOperation exactly when none does |
| DependencyInjection.FirstOrDefault | src/Wd3w.AspNetCore.EasyTesting/SystemUnderTestBase.cs:209-219 | the first accepted registration, or none exactly when no registration is accepted |
| DependencyInjection.Single | src/Wd3w.AspNetCore.EasyTesting/SystemUnderTestBase.cs:242-245 | the one accepted registration when exactly one is accepted; InvalidOperation otherwise |
| DependencyInjection.Remove | src/Wd3w.AspNetCore.EasyTesting/SystemUnderTestBase.cs:209-219 | when the registration occurs: the collection without the first position holding it (no earlier position holds it), one shorter; the registrations not equal to it are kept, in order and in number; no change when none is equal |
| DependencyInjection.Replace | src/Wd3w.AspNetCore.EasyTesting/SystemUnderTestBase.cs:93-103 | definition of `Replace` (first registration of the type removed, descriptor appended); what it promises about counts and the other types is proved by ReplaceCounts |
| DependencyInjection.RemoveAll | src/Wd3w.AspNetCore.EasyTesting/SystemUnderTestBase.cs:177-190 | the registrations of other types, in order (the Filter that rejects the type): none of the type is left, every other one is kept, and the result is shorter by exactly the number of registrations of the type; FilterConcat and FilterMultiplicity give the order and multiplicity |
| DependencyInjection.TryAddSingleton | src/Wd3w.AspNetCore.EasyTesting/SystemUnderTestBase.cs:329-333 | definition of `TryAddSingleton`, one ensures per branch; what it promises for resolution and the one-instance-per-type registry is proved by SystemUnderTestBase.TryAddSingletonKeepsRegistry |
| DependencyInjection.GetService | src/Wd3w.AspNetCore.EasyTesting/SystemUnderTestBase.cs:35-37 | resolving from the internal registry finds nothing exactly when no instance is registered for the type |
| DependencyInjection.RemoveFirstFilter | src/Wd3w.AspNetCore.EasyTesting/SystemUnderTestBase.cs:209-219 | removing the first match removes exactly one accepted registration; the registrations the predicate rejects are unchanged |
| DependencyInjection.RemoveFound | src/Wd3w.AspNetCore.EasyTesting/SystemUnderTestBase.cs:209-219 | removing by value the registration FirstOrDefault found is removing the first match |
| DependencyInjection.ReplaceCounts | src/Wd3w.AspNetCore.EasyTesting/SystemUnderTestBase.cs:93-103 | after Replace, the number of registrations of the type drops by one if there were any, plus one for the new descriptor |
| ServiceCollectionHelper.FindServiceDescriptor | src/Wd3w.AspNetCore.EasyTesting/Internal/ServiceCollectionHelper.cs:8-11 | the result has the requested service type and is the first one in collection order; InvalidOperation exactly when the type is not registered |
| TestServices.ReplaceWithTypeEffect | src/Wd3w.AspNetCore.EasyTesting/SystemUnderTestBase.cs:93-103 | replacing by type installs (service, implementation, given lifetime or the first original registration's lifetime); InvalidOperation when the service was never registered |
| TestServices.ReplaceWithInstanceEffect | src/Wd3w.AspNetCore.EasyTesting/SystemUnderTestBase.cs:148-153 | replacing with an object installs a singleton instance registration of it through Replace |
| TestServices.ReplaceWithObjectFactoryEffect | src/Wd3w.AspNetCore.EasyTesting/SystemUnderTest.cs:106-112 | the generic revision installs a singleton whose factory returns the object |
| TestServices.ReplaceConfigureOptionsEffect | src/Wd3w.AspNetCore.EasyTesting/SystemUnderTestBase.cs:161-170 | no configurer of the options type is left except exactly one new one, at the end; other registrations are kept in order |
| TestServices.RemoveAllOfTypeEffect | src/Wd3w.AspNetCore.EasyTesting/SystemUnderTestBase.cs:177-190 | RemoveAll leaves no registration of the type and keeps all others in order |
| TestServices.RemoveAllByEffect | src/Wd3w.AspNetCore.EasyTesting/SystemUnderTestBase.cs:226-235 | RemoveAllBy succeeds, leaves no registration satisfying the condition, keeps every other one as often as it occurred and in order (the Filter of the rejected ones), and is shorter by the number of matches |
| TestServices.RemoveSingleByEffect | src/Wd3w.AspNetCore.EasyTesting/SystemUnderTestBase.cs:242-245 | RemoveSingleBy fails with InvalidOperation unless exactly one registration matches, and then removes just that one |
| TestServices.RemoveImplementationEffect | src/Wd3w.AspNetCore.EasyTesting/SystemUnderTestBase.cs:198-219 | Remove(service, implementation) removes at most the first matching registration and is a no-op when none matches |
| TestServices.DisableOptionDataAnnotationValidationEffect | src/Wd3w.AspNetCore.EasyTesting/SystemUnderTestBase.cs:313-327 | removes at most the first data-annotation validator of the options type; no-op when there is none |
| TestServices.DisableStartupFilterEffect | src/Wd3w.AspNetCore.EasyTesting/SystemUnderTestBase.cs:261-270 | removes only the first registration of the filter (by implementation type or instance type); InvalidOperation when there is none |
| TestServices.ReplaceNamedConfigureOptionsEffect | src/Wd3w.AspNetCore.EasyTesting/SystemUnderTestBase.cs:279-294 | removes only the named configurers with that name, keeps everything else in order, and appends exactly one new named configurer |
| TestServices.ReplaceAuthenticationHandlerEffect | src/Wd3w.AspNetCore.EasyTesting/Authentication/AuthenticationHandlerHelper.cs:124-157 | InvalidOperation without an authentication configurer or when the validated scheme is missing; with a non-fake replacement it succeeds exactly when both are present, and every other failure comes from the fake-handler path; on success every scheme is kept with its name and only picked ones are rewritten |
| TestServices.RemoveEach | src/Wd3w.AspNetCore.EasyTesting/SystemUnderTestBase.cs:226-235 | the removal loop over a snapshot of the matches leaves exactly the registrations the condition rejects |
| TestServices.RemoveMatchingHead | src/Wd3w.AspNetCore.EasyTesting/SystemUnderTestBase.cs:226-235 | removing the first snapshot element by value removes the first match, which keeps the loop's invariant |
| TestServices.ApplyMutation | src/Wd3w.AspNetCore.EasyTesting/SystemUnderTestBase.cs:93-327 | running one deferred handler, with the source's loops as loops, yields what the handler's specification says |
| TestServices.Replay | src/Wd3w.AspNetCore.EasyTesting/SystemUnderTestBase.cs:637-645 | invoking the handlers in subscription order until one raises yields the specified replay |
| TestServices.ApplyAllFailureSticks | src/Wd3w.AspNetCore.EasyTesting/SystemUnderTestBase.cs:637-645 | once a handler raises, the later handlers are not run and the replay raises that failure |
| TestServices.ApplyAllConcat | src/Wd3w.AspNetCore.EasyTesting/SystemUnderTestBase.cs:637-645 | replaying two lists of handlers is replaying the first and then the second on its result |
| TestServices.ReplayedCount | src/Wd3w.AspNetCore.EasyTesting/SystemUnderTestBase.cs:637-645 | the number of handlers invoked is at most the number subscribed |
| TestServices.ReplayedCountMeaning | src/Wd3w.AspNetCore.EasyTesting/SystemUnderTestBase.cs:637-645 | all handlers are invoked when none raises; otherwise invocation stops right after the one that raised |
| AuthenticationSchemes.SchemeNames | src/Wd3w.AspNetCore.EasyTesting/Authentication/AuthenticationHandlerHelper.cs:16 | definition of the list of scheme names, position by position; its use as the membership test is proved by ValidateSchemeName |
| AuthenticationSchemes.ValidateSchemeName | src/Wd3w.AspNetCore.EasyTesting/Authentication/AuthenticationHandlerHelper.cs:12-19 | passes exactly when some registered scheme has the name; otherwise InvalidOperation |
| AuthenticationSchemes.MakeFakeHandlerType | src/Wd3w.AspNetCore.EasyTesting/Authentication/AuthenticationHandlerHelper.cs:71-87 | definition of the three outcomes (fake handler kept, AuthenticationHandler<TOptions> base gives the fake of TOptions, other base InvalidOperation, no base NullReference); beyond its body it states that every success is a fake handler type, and MakeFakeHandlerTypeKeepsOptions that the options type is kept |
| AuthenticationSchemes.MakeFakeHandlerTypeIdempotent | src/Wd3w.AspNetCore.EasyTesting/Authentication/AuthenticationHandlerHelper.cs:73-74 | making an already made fake handler type fake again gives the same type |
| AuthenticationSchemes.MakeFakeHandlerTypeKeepsOptions | src/Wd3w.AspNetCore.EasyTesting/Authentication/AuthenticationHandlerHelper.cs:76-86 | the fake handler keeps the original handler's options type |
| AuthenticationSchemes.NewDescriptor | src/Wd3w.AspNetCore.EasyTesting/Authentication/AuthenticationHandlerHelper.cs:40-63 | the descriptor for a picked scheme: the given handler, or a singleton of the synthesised fake type; fails only when the fake type cannot be made |
| AuthenticationSchemes.PostProcess | src/Wd3w.AspNetCore.EasyTesting/Authentication/AuthenticationHandlerHelper.cs:96-103 | the fake path removes every registration of the fake type and ends with one singleton instance holding the result; other replacements change nothing |
| AuthenticationSchemes.ReplaceSchemeHandlers | src/Wd3w.AspNetCore.EasyTesting/Authentication/AuthenticationHandlerHelper.cs:142-152 | the foreach over the schemes yields the specified rewrite of schemes and registrations |
| AuthenticationSchemes.RewriteSchemesSnoc | src/Wd3w.AspNetCore.EasyTesting/Authentication/AuthenticationHandlerHelper.cs:142-152 | the loop over one more scheme is the loop so far followed by one iteration |
| AuthenticationSchemes.RewriteSchemesFailureSticks | src/Wd3w.AspNetCore.EasyTesting/Authentication/AuthenticationHandlerHelper.cs:142-152 | a failure in one iteration ends the loop with that failure |
| AuthenticationSchemes.RewriteSchemesShape | src/Wd3w.AspNetCore.EasyTesting/Authentication/AuthenticationHandlerHelper.cs:142-152 | the loop keeps every scheme, in order, with its name; unpicked schemes are untouched, picked ones get the new descriptor's service type as handler type |
| AuthenticationSchemes.RewriteSchemesNothingPicked | src/Wd3w.AspNetCore.EasyTesting/Authentication/AuthenticationHandlerHelper.cs:142-152 | with no scheme picked, neither schemes nor registrations change |
| AuthenticationSchemes.RewriteSchemesFailure | src/Wd3w.AspNetCore.EasyTesting/Authentication/AuthenticationHandlerHelper.cs:142-152 | only the fake replacement can make the loop fail |
| AuthenticationSchemes.RewriteSchemeRegistrations | src/Wd3w.AspNetCore.EasyTesting/Authentication/AuthenticationHandlerHelper.cs:147-151 | a picked scheme's old handler registrations are removed and the new descriptor appended; everything else is kept in order |
| AuthenticationSchemes.RewriteSchemeFake | src/Wd3w.AspNetCore.EasyTesting/Authentication/AuthenticationHandlerHelper.cs:88-105 | pre-build fake authentication leaves exactly one registration of the fake type, a singleton instance already holding the result, after removing earlier ones |
| SetupFixtures.FirstThrow | src/Wd3w.AspNetCore.EasyTesting/SystemUnderTestBase.cs:647-655 | the first fixture handler that throws before returning a task, if any |
| SetupFixtures.Invoked | src/Wd3w.AspNetCore.EasyTesting/SystemUnderTestBase.cs:647-655 | handlers are invoked in subscription order: all of them, or up to and including the first that throws |
| SetupFixtures.WhenAll | src/Wd3w.AspNetCore.EasyTesting/SystemUnderTestBase.cs:647-655 | invoking every handler and waiting on all tasks yields the invoked calls and the outcome of waiting on all of them |
| SetupFixtures.InvokeAndWaitLast | src/Wd3w.AspNetCore.EasyTesting/SystemUnderTest.cs:89 | invoking the event and waiting on its result yields the same calls, but only the last task's fault |
| SetupFixtures.WhenAllPasses | src/Wd3w.AspNetCore.EasyTesting/SystemUnderTestBase.cs:647-655 | waiting on all tasks passes exactly when every handler's task ran to completion, and then all were invoked |
| SetupFixtures.LastTaskWeakerThanWhenAll | src/Wd3w.AspNetCore.EasyTesting/SystemUnderTest.cs:89 | waiting on the last task never reports more than waiting on all of them |
| SetupFixtures.LastTaskMissesEarlierFault | src/Wd3w.AspNetCore.EasyTesting/SystemUnderTest.cs:89 | with a faulting first fixture and a completing second one, waiting on the last task passes where waiting on all raises |
| SetupFixtures.ExecuteSetupFixtureWithoutFixtures | src/Wd3w.AspNetCore.EasyTesting/SystemUnderTestBase.cs:647-655 | with no fixtures the code as written raises ArgumentNull, where waiting on no tasks passes |
| Types.FixtureCalls | src/Wd3w.AspNetCore.EasyTesting/SystemUnderTestBase.cs:341-346 | definition of the fixture calls, one per fixture in subscription order with the service resolved from the provider; what invoking them promises is proved by SetupFixtures.WhenAll |
| SystemUnderTestBase.NotCreatedGuard | src/Wd3w.AspNetCore.EasyTesting/SystemUnderTestBase.cs:47-51 | passes exactly while no provider exists; otherwise InvalidOperation |
| SystemUnderTestBase.CreatedGuard | src/Wd3w.AspNetCore.EasyTesting/SystemUnderTestBase.cs:81-84 | passes exactly once a provider exists; otherwise InvalidOperation |
| SystemUnderTestBase.TryAddSingletonKeepsRegistry | src/Wd3w.AspNetCore.EasyTesting/SystemUnderTestBase.cs:329-333 | the internal registry stays one singleton instance per type; the type resolves to the earlier instance if any, else the new one; other types resolve as before |
| SystemUnderTestBase.GetOrAddMemoises | src/Wd3w.AspNetCore.EasyTesting/SystemUnderTestBase.cs:329-333 | the first instance added for a type is what every later get-or-add returns, whatever the factory makes then |
| SystemUnderTestBase.ResolvedFits | src/Wd3w.AspNetCore.EasyTesting/SystemUnderTestBase.cs:35-37 | what the internal registry resolves for Mock<T> is a mock of T |
| SystemUnderTestBase.ResolveKept | src/Wd3w.AspNetCore.EasyTesting.FakeItEasy/SystemUnderTestFakeItEasyExtensions.cs:72-75 | the lookup every mocking getter shares: InvalidOperation exactly when nothing was kept for the type, otherwise what the internal registry resolves, which fits the type in a well-typed registry |
| SystemUnderTestBase.ServiceArguments | src/Wd3w.AspNetCore.EasyTesting/SystemUnderTestBase.cs:422-457 | definition of the resolved arguments, one per requested type from the given provider; which provider serves them is proved by the UsingService methods |
| SystemUnderTestBase.UsingService3ResolvesFromRoot | src/Wd3w.AspNetCore.EasyTesting/SystemUnderTestBase.cs:450-457 | the three-service overload as written resolves the second and third service from the root provider, not the scope |
| SystemUnderTestBase.SystemUnderTest.constructor | src/Wd3w.AspNetCore.EasyTesting/SystemUnderTestBase.cs:31-45 | no provider, no captured collection, an empty internal registry and empty handler lists |
| SystemUnderTestBase.SystemUnderTest.ConfigureTestServices | src/Wd3w.AspNetCore.EasyTesting/SystemUnderTestBase.cs:67-72 | refused with InvalidOperation once a provider exists, appending nothing; otherwise appends the handler and changes nothing else |
| SystemUnderTestBase.SystemUnderTest.ConfigureHost | src/Wd3w.AspNetCore.EasyTesting/SystemUnderTestBase.cs:74-79 | refused once a provider exists; otherwise appends the host mutation |
| SystemUnderTestBase.SystemUnderTest.ReplaceService | src/Wd3w.AspNetCore.EasyTesting/SystemUnderTestBase.cs:93-103 | guarded; appends a replace-by-type handler |
| SystemUnderTestBase.SystemUnderTest.ReplaceServiceWith | src/Wd3w.AspNetCore.EasyTesting/SystemUnderTestBase.cs:148-153 | guarded; appends an instance-replacement handler |
| SystemUnderTestBase.SystemUnderTest.ReplaceLoggerFactory | src/Wd3w.AspNetCore.EasyTesting/SystemUnderTestBase.cs:110-127 | guarded; appends an instance replacement of ILoggerFactory |
| SystemUnderTestBase.SystemUnderTest.ReplaceDistributedInMemoryCache | src/Wd3w.AspNetCore.EasyTesting/SystemUnderTestBase.cs:135-140 | guarded; appends an instance replacement of IDistributedCache |
| SystemUnderTestBase.SystemUnderTest.ReplaceConfigureOptions | src/Wd3w.AspNetCore.EasyTesting/SystemUnderTestBase.cs:161-170 | guarded; appends the configure-options replacement |
| SystemUnderTestBase.SystemUnderTest.RemoveAll | src/Wd3w.AspNetCore.EasyTesting/SystemUnderTestBase.cs:177-190 | guarded; appends the remove-all handler |
| SystemUnderTestBase.SystemUnderTest.Remove | src/Wd3w.AspNetCore.EasyTesting/SystemUnderTestBase.cs:198-219 | guarded; appends the remove-first-match handler |
| SystemUnderTestBase.SystemUnderTest.RemoveAllBy | src/Wd3w.AspNetCore.EasyTesting/SystemUnderTestBase.cs:226-235 | guarded; appends the remove-all-by-condition handler |
| SystemUnderTestBase.SystemUnderTest.RemoveSingleBy | src/Wd3w.AspNetCore.EasyTesting/SystemUnderTestBase.cs:242-245 | guarded; appends the remove-exactly-one handler |
| SystemUnderTestBase.SystemUnderTest.DisableStartupFilters | src/Wd3w.AspNetCore.EasyTesting/SystemUnderTestBase.cs:251-254 | guarded; appends removal of every IStartupFilter |
| SystemUnderTestBase.SystemUnderTest.DisableStartupFilter | src/Wd3w.AspNetCore.EasyTesting/SystemUnderTestBase.cs:261-270 | guarded; appends removal of the first registration of the filter |
| SystemUnderTestBase.SystemUnderTest.ReplaceNamedConfigureOptions | src/Wd3w.AspNetCore.EasyTesting/SystemUnderTestBase.cs:279-294 | guarded; appends the named-configurer replacement |
| SystemUnderTestBase.SystemUnderTest.DisableOptionValidations | src/Wd3w.AspNetCore.EasyTesting/SystemUnderTestBase.cs:301-306 | guarded; appends removal of every IValidateOptions of the options type |
| SystemUnderTestBase.SystemUnderTest.DisableOptionDataAnnotationValidation | src/Wd3w.AspNetCore.EasyTesting/SystemUnderTestBase.cs:313-327 | guarded; appends removal of the data-annotation validator |
| SystemUnderTestBase.SystemUnderTest.GetOrAddInternalService | src/Wd3w.AspNetCore.EasyTesting/SystemUnderTestBase.cs:329-333 | the registry becomes TryAddSingleton of the made instance; the result is what the type resolves to: the earlier instance if there was one, else the new one |
| SystemUnderTestBase.SystemUnderTest.SetupFixture | src/Wd3w.AspNetCore.EasyTesting/SystemUnderTestBase.cs:341-346 | refused once a provider exists; otherwise appends the fixture |
| SystemUnderTestBase.SystemUnderTest.SetupWebHostBuilder | src/Wd3w.AspNetCore.EasyTesting/SystemUnderTestBase.cs:497-502 | guarded; appends the host mutation |
| SystemUnderTestBase.SystemUnderTest.UseEnvironment | src/Wd3w.AspNetCore.EasyTesting/SystemUnderTestBase.cs:509-514 | guarded; appends the environment setting |
| SystemUnderTestBase.SystemUnderTest.UseProductionEnvironment | src/Wd3w.AspNetCore.EasyTesting/SystemUnderTestBase.cs:520-525 | guarded; appends the environment "Production" |
| SystemUnderTestBase.SystemUnderTest.UseStagingEnvironment | src/Wd3w.AspNetCore.EasyTesting/SystemUnderTestBase.cs:531-536 | guarded; appends the environment "Staging" |
| SystemUnderTestBase.SystemUnderTest.UseDevelopmentEnvironment | src/Wd3w.AspNetCore.EasyTesting/SystemUnderTestBase.cs:542-547 | guarded; appends the environment "Development" |
| SystemUnderTestBase.SystemUnderTest.UseSetting | src/Wd3w.AspNetCore.EasyTesting/SystemUnderTestBase.cs:555-560 | guarded; appends the host setting |
| SystemUnderTestBase.SystemUnderTest.ConfigureAppConfiguration | src/Wd3w.AspNetCore.EasyTesting/SystemUnderTestBase.cs:567-572 | guarded; appends the configuration source |
| SystemUnderTestBase.SystemUnderTest.OverrideAppConfigurationWithObject | src/Wd3w.AspNetCore.EasyTesting/SystemUnderTestBase.cs:580-599 | guarded; appends a JSON configuration source built from the object |
| SystemUnderTestBase.SystemUnderTest.OverrideAppConfigurationAt | src/Wd3w.AspNetCore.EasyTesting/SystemUnderTestBase.cs:607-612 | guarded; appends an in-memory source with the single pair |
| SystemUnderTestBase.SystemUnderTest.OverrideAppConfigurationWith | src/Wd3w.AspNetCore.EasyTesting/SystemUnderTestBase.cs:619-624 | guarded; appends an in-memory source with the given pairs |
| SystemUnderTestBase.SystemUnderTest.ConfigureServices | src/Wd3w.AspNetCore.EasyTesting/SystemUnderTestBase.cs:631-635 | unguarded: always appends the host mutation, even after a client exists |
| SystemUnderTestBase.SystemUnderTest.UsingServiceProvider | src/Wd3w.AspNetCore.EasyTesting/SystemUnderTestBase.cs:353-358 | InvalidOperation before the action runs when no provider exists; otherwise the action gets a scope's provider |
| SystemUnderTestBase.SystemUnderTest.UsingService | src/Wd3w.AspNetCore.EasyTesting/SystemUnderTestBase.cs:366-457 | InvalidOperation before the action runs when no provider exists; otherwise every service is resolved from the opened scope |
| SystemUnderTestBase.SystemUnderTest.ConfigureWebHostBuilder | src/Wd3w.AspNetCore.EasyTesting/SystemUnderTestBase.cs:637-645 | host mutations first, then the test-service replay; the collection is captured only when the replay succeeds |
| SystemUnderTestBase.SystemUnderTest.ExecuteSetupFixtureAsWritten | src/Wd3w.AspNetCore.EasyTesting/SystemUnderTestBase.cs:647-655 | as written: ArgumentNull without a provider (the null check `CreateScope` makes) and ArgumentNull with no fixtures; otherwise every fixture invoked in order against one scope and all tasks waited on |
| SystemUnderTestBase.SystemUnderTest.ExecuteSetupFixture | src/Wd3w.AspNetCore.EasyTesting/SystemUnderTestBase.cs:647-655 | ArgumentNull without a provider (the null check `CreateScope` makes); otherwise every fixture invoked in order against one scope and all tasks waited on; with no fixtures nothing is invoked and it passes |
| SystemUnderTestBase.SystemUnderTest.CreateClient | src/Wd3w.AspNetCore.EasyTesting/SystemUnderTestBase.cs:637-655 | a second creation changes nothing; otherwise host mutations, then the replay, then capture and the provider, then the fixtures; a failing replay leaves no provider |
| SystemUnderTestVerify.CheckServiceCollectionAllocated | src/Wd3w.AspNetCore.EasyTesting/SystemUnderTestBase.cs:485-490 | passes exactly when a collection was captured; otherwise InvalidOperation |
| SystemUnderTestVerify.Should | src/Wd3w.AspNetCore.EasyTesting/SystemUnderTest.Verify.cs:20 | an assertion passes exactly when its condition holds, and otherwise fails as an assertion |
| SystemUnderTestVerify.VerifyRegisteredLifeTimeOfService | src/Wd3w.AspNetCore.EasyTesting/SystemUnderTest.Verify.cs:17-21 | InvalidOperation before capture or when the service is unregistered; an assertion failure only when the service is registered |
| SystemUnderTestVerify.FirstOfTypeUnique | src/Wd3w.AspNetCore.EasyTesting/Internal/ServiceCollectionHelper.cs:8-11 | there is only one first registration of a type |
| SystemUnderTestVerify.LifetimeVerifiedIff | src/Wd3w.AspNetCore.EasyTesting/SystemUnderTest.Verify.cs:17-21 | passes exactly when the first registration of the service has the lifetime |
| SystemUnderTestVerify.GetImplementationType | src/Wd3w.AspNetCore.EasyTesting/SystemUnderTestBase.cs:466-483 | implementation type first, then the instance's runtime type, then the runtime type of what the factory's resolution yields; InvalidOperation when that resolution is null |
| SystemUnderTestVerify.VerifyRegisteredImplementationTypeOfService | src/Wd3w.AspNetCore.EasyTesting/SystemUnderTest.Verify.cs:28-32 | InvalidOperation before capture or when the service is unregistered; when it passes for registered services is stated by ImplementationTypeVerifiedIff |
| SystemUnderTestVerify.ImplementationTypeVerifiedIff | src/Wd3w.AspNetCore.EasyTesting/SystemUnderTest.Verify.cs:28-32 | for every kind of first registration, passes exactly when GetImplementationType gives the expected type; for a registration by type or instance that is its declared type or the instance's runtime type, whatever the provider resolves; a factory registration that resolves to null raises InvalidOperation |
| SystemUnderTestVerify.VerifyRegistrationByCondition | src/Wd3w.AspNetCore.EasyTesting/SystemUnderTest.Verify.cs:38-42 | passes exactly when some captured registration satisfies the condition |
| SystemUnderTestVerify.VerifyNoRegistrationByCondition | src/Wd3w.AspNetCore.EasyTesting/SystemUnderTest.Verify.cs:48-52 | passes exactly when no captured registration satisfies the condition |
| SystemUnderTestVerify.ConditionChecksComplementary | src/Wd3w.AspNetCore.EasyTesting/SystemUnderTest.Verify.cs:38-52 | after capture, exactly one of the two condition checks passes |
| SystemUnderTestVerify.VerifyNoRegistration | src/Wd3w.AspNetCore.EasyTesting/SystemUnderTest.Verify.cs:58-71 | passes exactly when no registration has the service type, i.e. when FindServiceDescriptor fails |
| SystemUnderTestVerify.ScanAsWritten | src/Wd3w.AspNetCore.EasyTesting/SystemUnderTest.Verify.cs:92-94 | the scan as written fails only by assertion or by dereferencing a missing instance |
| SystemUnderTestVerify.VerifyNoRegistrationOfAsWritten | src/Wd3w.AspNetCore.EasyTesting/SystemUnderTest.Verify.cs:89-95 | as written: InvalidOperation before capture, otherwise the in-order scan |
| SystemUnderTestVerify.VerifyNoRegistrationOf | src/Wd3w.AspNetCore.EasyTesting/SystemUnderTest.Verify.cs:78-95 | passes exactly when no registration has the service type with that implementation type or an instance of it |
| SystemUnderTestVerify.ScanAsWrittenPasses | src/Wd3w.AspNetCore.EasyTesting/SystemUnderTest.Verify.cs:89-95 | where the check as written passes, no registration of the service has that implementation type or an instance of it |
| SystemUnderTestVerify.ScanAsWrittenAsserts | src/Wd3w.AspNetCore.EasyTesting/SystemUnderTest.Verify.cs:89-95 | where the check as written fails an assertion, some registration of the service has that implementation type or an instance of it |
| SystemUnderTestVerify.ScanAsWrittenAgrees | src/Wd3w.AspNetCore.EasyTesting/SystemUnderTest.Verify.cs:89-95 | when every registration of the service has the implementation type or an instance, the check as written gives exactly the intended outcome |
| SystemUnderTestVerify.VerifyNoRegistrationNullReference | src/Wd3w.AspNetCore.EasyTesting/SystemUnderTest.Verify.cs:92-94 | one registration by another implementation type makes the check as written raise NullReference where the intended check passes |
| SystemUnderTestGeneric.SystemUnderTest.constructor | src/Wd3w.AspNetCore.EasyTesting/SystemUnderTest.cs:15-30 | no provider, no captured collection, empty handler lists |
| SystemUnderTestGeneric.SystemUnderTest.ReplaceService | src/Wd3w.AspNetCore.EasyTesting/SystemUnderTest.cs:94-104 | refused once a provider exists, appending nothing; otherwise appends the replace-by-type handler |
| SystemUnderTestGeneric.SystemUnderTest.ReplaceServiceWith | src/Wd3w.AspNetCore.EasyTesting/SystemUnderTest.cs:106-112 | guarded; appends a singleton factory replacement returning the object |
| SystemUnderTestGeneric.SystemUnderTest.MockService | src/Wd3w.AspNetCore.EasyTesting/SystemUnderTest.cs:114-120 | guarded; the mock made by this call, not an earlier one, replaces the service through a factory |
| SystemUnderTestGeneric.SystemUnderTest.SetupFixture | src/Wd3w.AspNetCore.EasyTesting/SystemUnderTest.cs:122-127 | guarded; appends the fixture |
| SystemUnderTestGeneric.SystemUnderTest.UsingServiceProvider | src/Wd3w.AspNetCore.EasyTesting/SystemUnderTest.cs:129-136 | InvalidOperation when no provider exists; otherwise the action gets the root provider |
| SystemUnderTestGeneric.SystemUnderTest.UsingService | src/Wd3w.AspNetCore.EasyTesting/SystemUnderTest.cs:138-202 | InvalidOperation when no provider exists; otherwise every service comes from the root provider |
| SystemUnderTestGeneric.SystemUnderTest.CreateClient | src/Wd3w.AspNetCore.EasyTesting/SystemUnderTest.cs:78-92 | every creation replays the handlers; on success the collection is captured, the provider stored and the fixtures run against it |
| SystemUnderTestGeneric.SystemUnderTest.VerifyRegisteredLifeTimeOfService | src/Wd3w.AspNetCore.EasyTesting/SystemUnderTest.cs:204-212 | InvalidOperation before capture or when unregistered; otherwise whether the first registration has the lifetime |
| EasyIntergrationTester.Tester.constructor | src/Wd3w.AspNetCore.EasyTesting/EasyIntergrationTester.cs:18-21 | no provider and empty handler lists |
| EasyIntergrationTester.Tester.WithReplaceService | src/Wd3w.AspNetCore.EasyTesting/EasyIntergrationTester.cs:66-80 | refused once a provider exists, appending nothing; otherwise appends the replace-by-type handler |
| EasyIntergrationTester.Tester.WithReplaceServiceWith | src/Wd3w.AspNetCore.EasyTesting/EasyIntergrationTester.cs:82-87 | guarded; appends a singleton factory replacement returning the object |
| EasyIntergrationTester.Tester.WithMockService | src/Wd3w.AspNetCore.EasyTesting/EasyIntergrationTester.cs:89-95 | guarded; the mock made by this call replaces the service |
| EasyIntergrationTester.Tester.WithSetupFixture | src/Wd3w.AspNetCore.EasyTesting/EasyIntergrationTester.cs:97-101 | unguarded: appends the fixture even after a provider exists |
| EasyIntergrationTester.Tester.UsingServiceProvider | src/Wd3w.AspNetCore.EasyTesting/EasyIntergrationTester.cs:103-110 | InvalidOperation when no provider exists; otherwise the action gets the root provider |
| EasyIntergrationTester.Tester.UsingService | src/Wd3w.AspNetCore.EasyTesting/EasyIntergrationTester.cs:112-175 | InvalidOperation when no provider exists; otherwise every service comes from the root provider |
| EasyIntergrationTester.Tester.CreateClient | src/Wd3w.AspNetCore.EasyTesting/EasyIntergrationTester.cs:52-64 | every creation replays the handlers; on success the provider is stored and the fixtures run against it; nothing is captured |
| FakeAuthenticationHandlers.FakeAuthenticationHandler.constructor | src/Wd3w.AspNetCore.EasyTesting/Authentication/FakeAuthenticationHandler.cs:24-32 | no stored result, no scheme, no context |
| FakeAuthenticationHandlers.FakeAuthenticationHandler.SetResult | src/Wd3w.AspNetCore.EasyTesting/Authentication/FakeAuthenticationHandler.cs:34-37 | stores the result and changes nothing else |
| FakeAuthenticationHandlers.FakeAuthenticationHandler.SetSuccess | src/Wd3w.AspNetCore.EasyTesting/Authentication/FakeAuthenticationHandler.cs:39-42 | a success for the principal under the scheme's name; NullReference and nothing stored before initialisation |
| FakeAuthenticationHandlers.FakeAuthenticationHandler.SetFailWithException | src/Wd3w.AspNetCore.EasyTesting/Authentication/FakeAuthenticationHandler.cs:44-47 | stores a failure carrying the exception |
| FakeAuthenticationHandlers.FakeAuthenticationHandler.SetFailWithMessage | src/Wd3w.AspNetCore.EasyTesting/Authentication/FakeAuthenticationHandler.cs:49-52 | stores a failure carrying the message |
| FakeAuthenticationHandlers.FakeAuthenticationHandler.AuthenticateAsync | src/Wd3w.AspNetCore.EasyTesting/Authentication/FakeAuthenticationHandler.cs:54-57 | returns the most recently stored result, none before any setter |
| FakeAuthenticationHandlers.FakeAuthenticationHandler.ChallengeAsync | src/Wd3w.AspNetCore.EasyTesting/Authentication/FakeAuthenticationHandler.cs:59-63 | status 401, stored result untouched; NullReference without a context |
| FakeAuthenticationHandlers.FakeAuthenticationHandler.ForbidAsync | src/Wd3w.AspNetCore.EasyTesting/Authentication/FakeAuthenticationHandler.cs:65-69 | status 403, stored result untouched; NullReference without a context |
| FakeAuthenticationHandlers.FakeAuthenticationHandler.InitializeAsync | src/Wd3w.AspNetCore.EasyTesting/Authentication/FakeAuthenticationHandler.cs:71-77 | stores scheme and context; the stored result is kept |
| FakeAuthenticationHandlers.AuthenticateAfterSetup | src/Wd3w.AspNetCore.EasyTesting/Authentication/FakeAuthenticationHandler.cs:39-77 | initialised and told to succeed, the handler reports that success, answers a challenge with 401 and still reports the same result |
| AuthenticationHandlerHelper.ReplaceAuthenticationHandlerOfType | src/Wd3w.AspNetCore.EasyTesting/Authentication/AuthenticationHandlerHelper.cs:35-43 | refused once a provider exists; otherwise appends the rewrite of the named scheme to a handler registered by type, validating the name |
| AuthenticationHandlerHelper.ReplaceAuthenticationHandlerInstance | src/Wd3w.AspNetCore.EasyTesting/Authentication/AuthenticationHandlerHelper.cs:45-53 | the same with a handler instance |
| AuthenticationHandlerHelper.ReplaceAuthenticationHandlerFactory | src/Wd3w.AspNetCore.EasyTesting/Authentication/AuthenticationHandlerHelper.cs:55-64 | the same with a handler factory |
| AuthenticationHandlerHelper.FirstPicked | src/Wd3w.AspNetCore.EasyTesting/Authentication/AuthenticationHandlerHelper.cs:114 | the position of the first scheme the picker selects, none exactly when no scheme is picked |
| AuthenticationHandlerHelper.FakeHandlerTarget | src/Wd3w.AspNetCore.EasyTesting/Authentication/AuthenticationHandlerHelper.cs:108-117 | InvalidOperation without options or without a picked scheme; with options, for the first picked scheme the result is MakeFakeHandlerType of its handler type, and every success is such a fake type |
| AuthenticationHandlerHelper.FirstPickedAgrees | src/Wd3w.AspNetCore.EasyTesting/Authentication/AuthenticationHandlerHelper.cs:114 | scheme lists that agree on what is picked have the same first pick |
| AuthenticationHandlerHelper.FakeTargetAfterRewrite | src/Wd3w.AspNetCore.EasyTesting/Authentication/AuthenticationHandlerHelper.cs:88-120 | after the pre-build rewrite, the post-build path targets the fake type the first picked scheme was given |
| AuthenticationHandlerHelper.FakeAuthentication | src/Wd3w.AspNetCore.EasyTesting/Authentication/AuthenticationHandlerHelper.cs:66-122 | before the build: appends the fake rewrite; after it: InvalidOperation without options, picked scheme or live fake handler, else stores the result in that handler only |
| AuthenticationHandlerHelper.FakeAuthenticationOfScheme | src/Wd3w.AspNetCore.EasyTesting/Authentication/AuthenticationHandlerHelper.cs:21-28 | fakes the scheme with that name, validating that it exists |
| AuthenticationHandlerHelper.FakeAuthenticationOfDefault | src/Wd3w.AspNetCore.EasyTesting/Authentication/AuthenticationHandlerHelper.cs:30-33 | fakes the scheme named as the default scheme, without validation |
| MoqExtensions.MockService | src/Wd3w.AspNetCore.EasyTesting.Moq/SystemUnderTestMoqExtensions.cs:20-40 | refused after build, changing nothing; otherwise the mock kept under Mock<T> (the new one only if none was kept) is returned and its object replaces T |
| MoqExtensions.MockServiceThen | src/Wd3w.AspNetCore.EasyTesting.Moq/SystemUnderTestMoqExtensions.cs:50-54 | the same, then the action gets that mock |
| MoqExtensions.GetServiceMock | src/Wd3w.AspNetCore.EasyTesting.Moq/SystemUnderTestMoqExtensions.cs:62-80 | the kept mock of T, also before build; InvalidOperation exactly when T was never mocked |
| MoqExtensions.UseServiceMock | src/Wd3w.AspNetCore.EasyTesting.Moq/SystemUnderTestMoqExtensions.cs:89-94 | the action gets the kept mock; InvalidOperation when there is none |
| MoqExtensions.VerifyCall | src/Wd3w.AspNetCore.EasyTesting.Moq/SystemUnderTestMoqExtensions.cs:104-111 | with no times given, passes exactly when at least one matching call was recorded; otherwise exactly when the times accept the count |
| MoqExtensions.VerifyCallOnce | src/Wd3w.AspNetCore.EasyTesting.Moq/SystemUnderTestMoqExtensions.cs:120-126 | passes exactly when one matching call was recorded |
| MoqExtensions.MockServiceTwice | src/Wd3w.AspNetCore.EasyTesting.Moq/SystemUnderTestMoqExtensions.cs:14-26 | two calls before build return the same mock |
| FakeItEasyExtensions.ReplaceDummyService | src/Wd3w.AspNetCore.EasyTesting.FakeItEasy/SystemUnderTestFakeItEasyExtensions.cs:19-24 | refused after build; otherwise the object kept for T replaces T |
| FakeItEasyExtensions.FakeService | src/Wd3w.AspNetCore.EasyTesting.FakeItEasy/SystemUnderTestFakeItEasyExtensions.cs:32-51 | refused after build; otherwise the fake kept for T (the new one only if none was kept) is returned and replaces T |
| FakeItEasyExtensions.FakeServiceThen | src/Wd3w.AspNetCore.EasyTesting.FakeItEasy/SystemUnderTestFakeItEasyExtensions.cs:60-64 | the same, then the action gets that fake |
| FakeItEasyExtensions.GetFakeService | src/Wd3w.AspNetCore.EasyTesting.FakeItEasy/SystemUnderTestFakeItEasyExtensions.cs:72-75 | the kept fake; InvalidOperation exactly when there is none |
| FakeItEasyExtensions.UseFakeService | src/Wd3w.AspNetCore.EasyTesting.FakeItEasy/SystemUnderTestFakeItEasyExtensions.cs:84-88 | the action gets the kept fake; InvalidOperation when there is none |
| FakeItEasyExtensions.DummyThenFake | src/Wd3w.AspNetCore.EasyTesting.FakeItEasy/SystemUnderTestFakeItEasyExtensions.cs:19-38 | a dummy registered first is what FakeService and GetFakeService then return |
| NSubstituteExtensions.ReplaceWithNSubstitute | src/Wd3w.AspNetCore.EasyTesting.NSubstitute/SystemUnderTestNSubstituteExtensions.cs:20-26 | refused after build; otherwise the substitute kept for T (the new one only if none was kept) is returned and replaces T |
| NSubstituteExtensions.ReplaceWithNSubstituteThen | src/Wd3w.AspNetCore.EasyTesting.NSubstitute/SystemUnderTestNSubstituteExtensions.cs:35-40 | the same, then the setup action gets that substitute |
| NSubstituteExtensions.GetSubstitute | src/Wd3w.AspNetCore.EasyTesting.NSubstitute/SystemUnderTestNSubstituteExtensions.cs:48-64 | the kept substitute; InvalidOperation exactly when there is none |
| NSubstituteExtensions.UseSubstitute | src/Wd3w.AspNetCore.EasyTesting.NSubstitute/SystemUnderTestNSubstituteExtensions.cs:73-78 | the action gets the kept substitute; InvalidOperation when there is none |
| NSubstituteExtensions.ReplaceTwice | src/Wd3w.AspNetCore.EasyTesting.NSubstitute/SystemUnderTestNSubstituteExtensions.cs:13-26 | two calls before build return the same substitute, the one GetSubstitute finds |

## Left out

- Host and HTTP layer: the web application factory, HTTP clients and the concrete subclass that owns `CreateClient` are not part of this model. The base `CreateClient` composes `ConfigureWebHostBuilder` and `ExecuteSetupFixture` once, and a second creation is assumed to reuse the built host.
- The application's own registrations and authentication options are parameters of `CreateClient` (`appServices`, `authentication`), and so are the provider and scope identities the host creates.
- TestServices.ReplaceAuthenticationHandlerEffect: the rewrite that `PostConfigure<AuthenticationOptions>` registers runs directly at replay time. The registration that call appends (an `IPostConfigureOptions<AuthenticationOptions>`, plus the option services `AddOptions` tries to add) is not in the modelled collection. Because the timing is collapsed, a missing validated scheme makes `CreateClient` fail in the model, while the code fails only when `AuthenticationOptions` are first resolved. Likewise, the handler registrations the rewrite removes and adds are edited at replay time, not after the collection has been captured.
- DependencyInjection.Remove: `ICollection.Remove` compares descriptors by reference, the model by value. The two agree at every call, because the registration removed is always one the same collection's query has just returned; RemoveFound and RemoveMatchingHead prove that removing it by value removes that first match.
- Asynchronous execution: tasks are modelled by how they end (`RanToCompletion`, `Faulted`, or a synchronous throw). Waits are sequential, with no concurrency.
- Aliasing: the service collection is a value, and the provider built from it is an identity. Edits made to the collection after it is captured are not modelled.
- Overloads that differ only in generic-versus-`Type` arguments, `out` versus return value, or sync versus async are collapsed into one member each.
- Mocking-library internals: `new Mock<T>()`, `A.Fake`, `A.Dummy` and `Substitute.For` are the `created` parameter. The number of matching calls Moq recorded is the parameter `recorded`.
- FluentAssertions scans are modelled as stopping at the first matching registration.
- SystemUnderTestVerify.GetImplementationType: resolving a factory registration from a freshly built provider is the parameter `resolve`.
- The NSubstitute extension passes `GetOrAddInternalService` a one-argument lambda where a parameterless factory is expected. The intended memoisation is modelled.
- SystemUnderTestBase.SystemUnderTest.GetOrAddInternalService: the factory is evaluated on every call, so its product is the parameter `created`, which is discarded when an instance is already registered.
- Exception messages are not modelled; only the exception kind is.
- Database helpers, response assertions, configuration-source contents (JSON serialisation, in-memory pairs) and the sample application are outside the core. Configuration edits are kept as opaque host mutations.
- SystemUnderTestBase.SystemUnderTest.UsingService: the three-service overload resolves all three services from the opened scope, which is the corrected behaviour. As written, the second and third come from the root provider (see Findings, and SystemUnderTestBase.UsingService3ResolvesFromRoot for the code as written).
- SystemUnderTestGeneric.SystemUnderTest.CreateClient and EasyIntergrationTester.Tester.CreateClient wait on every fixture task, which is the corrected behaviour. As written, only the last task is waited on (see Findings, and SetupFixtures.InvokeAndWaitLast for the code as written).
- AuthenticationHandlerHelper.FakeAuthentication: after the build, the live fake handlers are given as a map from handler type to handler object, standing in for resolution from the built provider.

## Findings

| source | as written | input that shows it | evidently intended | confidence | as-written member | corrected member |
|---|---|---|---|---|---|---|
| src/Wd3w.AspNetCore.EasyTesting/SystemUnderTestBase.cs:647-655 | with no fixture subscribed, the event is null and `Task.WhenAll` receives null | a build with no `SetupFixture` call | with no fixtures, nothing is run and the wait passes | low: the caller that would invoke this on every build is not part of this model, and src/Wd3w.AspNetCore.EasyTesting.Test/SystemUnderTest/CreateClientTest.cs:16 builds a client with no fixture and expects success, so the defect shows only if that caller invokes it unconditionally; not executed | SystemUnderTestBase.SystemUnderTest.ExecuteSetupFixtureAsWritten | SystemUnderTestBase.SystemUnderTest.ExecuteSetupFixture |
| src/Wd3w.AspNetCore.EasyTesting/SystemUnderTestBase.cs:450-457 | the three-service overload resolves the second and third service from the root provider, not the opened scope | a scoped service as the second type argument | all three services come from the scope, like the other overloads | high, not executed | SystemUnderTestBase.UsingService3ResolvesFromRoot | SystemUnderTestBase.SystemUnderTest.UsingService |
| src/Wd3w.AspNetCore.EasyTesting/SystemUnderTest.Verify.cs:89-95 | a registration of the service type with neither an instance nor the implementation type dereferences a null instance | one registration by another implementation type | such a registration does not match, and the check passes | high, not executed | SystemUnderTestVerify.VerifyNoRegistrationNullReference | SystemUnderTestVerify.VerifyNoRegistrationOf |
| src/Wd3w.AspNetCore.EasyTesting/SystemUnderTest.cs:89 | only the task of the last fixture handler is waited on | a faulting first fixture followed by a completing one | every fixture's failure is reported, as the base revision's `Task.WhenAll` does | medium, not executed | SetupFixtures.LastTaskMissesEarlierFault | SetupFixtures.WhenAll |
