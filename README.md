# ConsoleDriving build pipeline, modelled in Dafny

ConsoleDriving is a small .NET library in the style of the generic host: a
`ConsoleDriverBuilder` collects configuration, service and container
callbacks, and its one-shot `Build()` replays them in a fixed order to
produce a console driver. Starting the driver runs every registered
`IDriver` in turn and returns the last non-zero exit code.

This project models that core:

- the builder's four ordered action lists, its factory adapter and its built flag (`console_driver_builder.dfy`);
- `Build`, proved against a pure specification `BuildPipeline.Pipeline` of its five steps (`build_pipeline.dfy`):
  bootstrap configuration, environment descriptor, builder context, app configuration layered over the
  bootstrap one, and the service provider;
- the type-erased service-provider factory adapter with its resolve-once deferred mode (`service_factory_adapter.dfy`);
- the type-checked container-configuration adapter (`configure_container_adapter.dfy`);
- the driver loop with its exit-code aggregation, log hooks and call trace (`console_driver.dfy`);
- the builder context and its shared property bag (`builder_context.dfy`);
- the environment-name tests (`environments.dfy`), ordinal ignore-case comparison (`ordinal_ignore_case.dfy`),
  configuration lookup (`configurations.dfy`) and path operations (`paths.dfy`);
- the extension methods: `AddDriver`, the builder conveniences, and `Start`/`Run`/`RunAsync` on drivers and builders.

Modelling choices:

- A C# callback is modelled by its effect. Given what it can see, it yields the entries or registrations it adds,
  or the exception it throws (`Wrappers.Result`). Callbacks only add; they never remove.
- The external configuration library is assumed to behave as an ordered list of entries. A lookup returns the
  last entry whose key matches, ignoring case (`Configurations.Lookup`).
- The external DI container is assumed to behave as an ordered list of registrations. Resolving every `IDriver`
  yields one driver per `IDriver` registration, in registration order (`Services.Drivers`).
- A `Services.Registration` is a `ServiceDescriptor` whose implementation is a driver whenever the service is
  `IDriver`. This is what the C# type constraints on the registration methods guarantee, so every
  `IDriver` registration, whether of a type or of an instance, carries the driver's `ExecuteAsync`.
- Every `foreach` over an action list is specified by `Replays.Replay`: the actions run in order, each sees
  the state the earlier ones left, and the first exception ends the loop.
- Generic type arguments (`TContainerBuilder`) become a `Services.TypeTag` carried by the container builder.
  A C# cast is a tag comparison.
- `AppContext.BaseDirectory` and the current directory are inputs (`BuildPipeline.ProcessState`).
  Paths are POSIX paths.
- `Task`/`await` is sequential execution. A cancellation token is an opaque value passed through.
- Logging is a ghost trace of Starting/Stopped events.

## Model

| member | source | states |
|---|---|---|
| OrdinalIgnoreCase.EqualsIgnoreCaseIsUpperEquality | src/Akeraiotitasoft.ConsoleDriving.Abstractions/ConsoleDrivingEnvironmentExtensions.cs:78-81 | ordinal ignore-case equality is equality of the upper-cased strings |
| OrdinalIgnoreCase.EqualsIgnoreCaseIsEquivalence | src/Akeraiotitasoft.ConsoleDriving.Abstractions/ConsoleDrivingEnvironmentExtensions.cs:78-81 | ignore-case equality is reflexive, symmetric and transitive |
| Configurations.LookupFindsLastMatch | src/Akeraiotitasoft.ConsoleDriving/ConsoleDriverBuilder.cs:160-162 | a configuration read is null exactly when no key matches, and otherwise returns the value of the last matching entry |
| Configurations.LookupLayered | src/Akeraiotitasoft.ConsoleDriving/ConsoleDriverBuilder.cs:191-197 | with a base layer under added entries, a key the added entries set reads their value and any other key reads through to the base |
| Configurations.LookupIgnoresCase | src/Akeraiotitasoft.ConsoleDriving/ConsoleDriverBuilder.cs:160-162 | keys that differ only in letter case read the same value |
| Environments.IsEnvironment | src/Akeraiotitasoft.ConsoleDriving.Abstractions/ConsoleDrivingEnvironmentExtensions.cs:69-82 | a null environment throws ArgumentNullException("consoleDriverEnvironment"); otherwise true iff both names are null or they are equal ignoring case |
| Environments.IsDevelopment | src/Akeraiotitasoft.ConsoleDriving.Abstractions/ConsoleDrivingEnvironmentExtensions.cs:23-31 | the same as IsEnvironment with "Development", including the null check |
| Environments.IsStaging | src/Akeraiotitasoft.ConsoleDriving.Abstractions/ConsoleDrivingEnvironmentExtensions.cs:38-46 | the same as IsEnvironment with "Staging", including the null check |
| Environments.IsProduction | src/Akeraiotitasoft.ConsoleDriving.Abstractions/ConsoleDrivingEnvironmentExtensions.cs:53-61 | the same as IsEnvironment with "Production", including the null check |
| Environments.IsEnvironmentReflexive | src/Akeraiotitasoft.ConsoleDriving.Abstractions/ConsoleDrivingEnvironmentExtensions.cs:78-81 | an environment always is its own name, a null name included |
| Environments.IsEnvironmentSymmetric | src/Akeraiotitasoft.ConsoleDriving.Abstractions/ConsoleDrivingEnvironmentExtensions.cs:78-81 | whether one environment is named like another does not depend on which one asks |
| Environments.AtMostOneWellKnownEnvironment | src/Akeraiotitasoft.ConsoleDriving.Abstractions/ConsoleDrivingEnvironmentExtensions.cs:23-61 | no environment is more than one of Development, Staging and Production |
| Paths.Combine | src/Akeraiotitasoft.ConsoleDriving/ConsoleDriverBuilder.cs:177 | a rooted second part wins; an empty one gives the first part; otherwise the result starts with the first part, ends with the second, and is rooted when the first is |
| Paths.GetFullPath | src/Akeraiotitasoft.ConsoleDriving/ConsoleDriverBuilder.cs:177 | an empty path throws ArgumentException; a rooted path is returned as it is; a relative one lies under the current directory: the result starts with the current directory and ends with the path, so it is rooted when the current directory is |
| Replays.ReplayFailureSticks | src/Akeraiotitasoft.ConsoleDriving/ConsoleDriverBuilder.cs:149-152 | once an action throws, the whole loop throws that same exception and runs no later action |
| Replays.ReplayKeepsPrefix | src/Akeraiotitasoft.ConsoleDriving/ConsoleDriverBuilder.cs:192-196 | replaying actions that only add keeps everything that was there before |
| Services.DriversOfConcat | src/Akeraiotitasoft.ConsoleDriving.Abstractions/ServiceCollectionDriverExtensions.cs:28 | the drivers of two registration lists in sequence are the drivers of the first, then those of the second |
| Services.NoDriverRegistrations | src/Akeraiotitasoft.ConsoleDriving/ConsoleDriverBuilder.cs:204-210 | registrations of other services yield no driver |
| ServiceCollectionDriverExtensions.AddDriver | src/Akeraiotitasoft.ConsoleDriving.Abstractions/ServiceCollectionDriverExtensions.cs:25-30 | appends exactly one transient IDriver registration, keeps every earlier one, and returns the same collection; a null collection throws |
| ServiceCollectionDriverExtensions.AddDriverRepeated | src/Akeraiotitasoft.ConsoleDriving.Abstractions/ServiceCollectionDriverExtensions.cs:28 | adding a driver k times makes the loop run it k more times, after the drivers registered before |
| ServiceCollectionDriverExtensions.DriverOrderFollowsRegistration | src/Akeraiotitasoft.ConsoleDriving.Abstractions/ServiceCollectionDriverExtensions.cs:28 | of two drivers, the one registered first is enumerated first, whatever lies between them |
| BuilderContexts.ConsoleDriverBuilderContext.Create | src/Akeraiotitasoft.ConsoleDriving.Abstractions/ConsoleDriverBuilderContext.cs:23-26 | a null property bag throws ArgumentNullException("properties"); otherwise the context holds that very bag, with environment and configuration unset |
| BuilderContexts.ConsoleDriverBuilderContext.constructor | src/Akeraiotitasoft.ConsoleDriving.Abstractions/ConsoleDriverBuilderContext.cs:23-41 | the property bag is the object passed in and fixed for good; environment and configuration start unset and stay writable |
| ServiceFactoryAdapters.ServiceFactoryAdapter.CreateEager | src/Akeraiotitasoft.ConsoleDriving/Internal/ServiceFactoryAdapter.cs:17-20 | a null factory throws ArgumentNullException; otherwise the adapter holds that factory and no resolver |
| ServiceFactoryAdapters.ServiceFactoryAdapter.CreateDeferred | src/Akeraiotitasoft.ConsoleDriving/Internal/ServiceFactoryAdapter.cs:22-26 | a null context resolver is rejected first, then a null factory resolver; otherwise the adapter holds both and no factory |
| ServiceFactoryAdapters.ServiceFactoryAdapter.CreateBuilder | src/Akeraiotitasoft.ConsoleDriving/Internal/ServiceFactoryAdapter.cs:28-40 | a held factory is reused and the resolver is not invoked; without one, the resolver is invoked once with the context as it is now, a null result throws and caches nothing, and a factory is cached; a custom factory's exception propagates; the default factory's builder is the service collection itself |
| ServiceFactoryAdapters.ServiceFactoryAdapter.CreateServiceProvider | src/Akeraiotitasoft.ConsoleDriving/Internal/ServiceFactoryAdapter.cs:42-50 | without a factory throws InvalidOperationException; a builder of another type fails the cast; a custom factory's exception propagates; otherwise the provider holds the builder's registrations, and only a factory that yields null gives null |
| ConfigureContainerAdapters.NewConfigureContainerAdapter | src/Akeraiotitasoft.ConsoleDriving/Internal/ConfigureContainerAdapter.cs:13-16 | a null action throws ArgumentNullException("action"); otherwise the action is stored unchanged |
| ConfigureContainerAdapters.ConfigureContainer | src/Akeraiotitasoft.ConsoleDriving/Internal/ConfigureContainerAdapter.cs:18-21 | a builder of another type fails the cast rather than being skipped; otherwise the stored action runs once on that builder with that context |
| ConsoleDrivers.LastNonZeroCharacterised | src/Akeraiotitasoft.ConsoleDriving/Internal/ConsoleDriver.cs:52-67 | the aggregate is 0 iff every code is 0; otherwise it is a code after which every code is 0 |
| ConsoleDrivers.LastNonZeroExamples | src/Akeraiotitasoft.ConsoleDriving/Internal/ConsoleDriver.cs:52-67 | the aggregate is the last non-zero code, not the first and not the largest |
| ConsoleDrivers.RunDriversIsLastNonZero | src/Akeraiotitasoft.ConsoleDriving/Internal/ConsoleDriver.cs:52-67 | when no driver throws, the loop returns the last non-zero exit code, or 0 |
| ConsoleDrivers.RunDriversStopsAtThrow | src/Akeraiotitasoft.ConsoleDriving/Internal/ConsoleDriver.cs:54-57 | a driver that throws ends the loop with its exception |
| ConsoleDrivers.CallCountAllComplete | src/Akeraiotitasoft.ConsoleDriving/Internal/ConsoleDriver.cs:54-57 | when no driver throws, every driver is called |
| ConsoleDrivers.CallCountStopsAtThrow | src/Akeraiotitasoft.ConsoleDriving/Internal/ConsoleDriver.cs:54-57 | the drivers after one that throws are never called |
| ConsoleDrivers.ConsoleDriver.Create | src/Akeraiotitasoft.ConsoleDriving/Internal/ConsoleDriver.cs:25-34 | null services throw first, then a null logger; null command-line arguments are accepted |
| ConsoleDrivers.ConsoleDriver.ReadResult | src/Akeraiotitasoft.ConsoleDriving/Internal/ConsoleDriver.cs:39 | reading Result always throws NotImplementedException |
| ConsoleDrivers.ConsoleDriver.Dispose | src/Akeraiotitasoft.ConsoleDriving/Internal/ConsoleDriver.cs:41-44 | the service provider is disposed exactly when it is disposable |
| ConsoleDrivers.ConsoleDriver.StartAsync | src/Akeraiotitasoft.ConsoleDriving/Internal/ConsoleDriver.cs:46-68 | resolves the drivers from the provider; Starting is logged before them and Stopped only if none threw; the result and call trace are those of the loop |
| ConsoleDrivers.ConsoleDriver.ExecuteDrivers | src/Akeraiotitasoft.ConsoleDriving/Internal/ConsoleDriver.cs:52-63 | drivers are called one after another in enumeration order with the same arguments and token; the result is the replayed aggregate; a null arguments object throws before the first call |
| BuildPipeline.ResolveContentRootPath | src/Akeraiotitasoft.ConsoleDriving/ConsoleDriverBuilder.cs:167-178 | null or empty gives the base path; a rooted path is kept as it is; a relative one fails exactly when the base path is empty (ArgumentException), and otherwise starts with the full base path, ends with the input, and is rooted when the base or current directory is |
| BuildPipeline.ContentRootIsRooted | src/Akeraiotitasoft.ConsoleDriving/ConsoleDriverBuilder.cs:167-178 | with a rooted base directory the content root is always resolved and rooted |
| BuildPipeline.EnvironmentFor | src/Akeraiotitasoft.ConsoleDriving/ConsoleDriverBuilder.cs:156-165 | the environment always has a name and takes the configured application name; the file provider is rooted at the resolved content root; resolution errors propagate |
| BuildPipeline.EnvironmentDefaultsToProduction | src/Akeraiotitasoft.ConsoleDriving/ConsoleDriverBuilder.cs:161 | without an "environment" key the environment's name is exactly "Production" |
| BuildPipeline.EnvironmentNamedByLastEntry | src/Akeraiotitasoft.ConsoleDriving/ConsoleDriverBuilder.cs:161 | with "environment" keys, the last one names the environment |
| BuildPipeline.BuiltIns | src/Akeraiotitasoft.ConsoleDriving/ConsoleDriverBuilder.cs:203-210 | seven singleton registrations come first, the console driver among them and no driver |
| BuildPipeline.ResolveFactory | src/Akeraiotitasoft.ConsoleDriving/Internal/ServiceFactoryAdapter.cs:30-39 | a held factory is used; otherwise the resolver's result is used, a null one throws and its exception propagates |
| BuildPipeline.AppConfigurationLayersOverBootstrap | src/Akeraiotitasoft.ConsoleDriving/ConsoleDriverBuilder.cs:189-199 | the app configuration has the bootstrap configuration as its first layer: app entries win and other keys read through |
| BuildPipeline.RegistrationsStartWithBuiltIns | src/Akeraiotitasoft.ConsoleDriving/ConsoleDriverBuilder.cs:201-224 | the provider's registrations start with the built-ins, and its drivers are the ones the actions registered, in order |
| BuildPipeline.ContainerTypeMismatchFails | src/Akeraiotitasoft.ConsoleDriving/ConsoleDriverBuilder.cs:219-222 | once the factory has produced its builder, a container action declared for another builder type ends the build with a cast failure |
| ConsoleDriverBuilders.ConsoleDriverBuilder.constructor | src/Akeraiotitasoft.ConsoleDriving/ConsoleDriverBuilder.cs:28-49 | lists empty, not built, and the installed adapter wraps the default factory over the service collection |
| ConsoleDriverBuilders.ConsoleDriverBuilder.ConfigureConsoleDriverConfiguration | src/Akeraiotitasoft.ConsoleDriving/ConsoleDriverBuilder.cs:57-61 | a null delegate throws; otherwise one action is appended to the bootstrap list only and the same builder is returned |
| ConsoleDriverBuilders.ConsoleDriverBuilder.ConfigureAppConfiguration | src/Akeraiotitasoft.ConsoleDriving/ConsoleDriverBuilder.cs:70-74 | a null delegate throws; otherwise one action is appended to the app list only and the same builder is returned |
| ConsoleDriverBuilders.ConsoleDriverBuilder.ConfigureServices | src/Akeraiotitasoft.ConsoleDriving/ConsoleDriverBuilder.cs:81-85 | a null delegate throws; otherwise one action is appended to the services list only and the same builder is returned |
| ConsoleDriverBuilders.ConsoleDriverBuilder.ConfigureContainer | src/Akeraiotitasoft.ConsoleDriving/ConsoleDriverBuilder.cs:118-123 | a null delegate throws; otherwise one adapter for the declared type is appended to the container list only |
| ConsoleDriverBuilders.ConsoleDriverBuilder.UseServiceProviderFactory | src/Akeraiotitasoft.ConsoleDriving/ConsoleDriverBuilder.cs:93-97 | a null factory throws; otherwise a new adapter over it replaces the installed one |
| ConsoleDriverBuilders.ConsoleDriverBuilder.UseServiceProviderFactoryDeferred | src/Akeraiotitasoft.ConsoleDriving/ConsoleDriverBuilder.cs:105-109 | a null resolver throws; otherwise a new deferred adapter replaces the installed one and reads this builder's context |
| ConsoleDriverBuilders.ConsoleDriverBuilder.Build | src/Akeraiotitasoft.ConsoleDriving/ConsoleDriverBuilder.cs:129-144 | a second call throws and changes nothing; the flag is set even when a step throws; the result and the new state are those of Pipeline; CreateBuilder and CreateServiceProvider are called once each and the resolver at most once |
| ConsoleDriverBuilders.ConsoleDriverBuilder.BuildConfigurations | src/Akeraiotitasoft.ConsoleDriving/ConsoleDriverBuilder.cs:137-140 | the configuration steps in order; after them the context holds the environment and the app configuration |
| ConsoleDriverBuilders.ConsoleDriverBuilder.BuildConsoleDriverConfiguration | src/Akeraiotitasoft.ConsoleDriving/ConsoleDriverBuilder.cs:146-154 | the bootstrap configuration is the replay of the bootstrap actions; an exception leaves the field as it was |
| ConsoleDriverBuilders.ConsoleDriverBuilder.CreateConsoleDrivingEnvironment | src/Akeraiotitasoft.ConsoleDriving/ConsoleDriverBuilder.cs:156-165 | the environment is the one read from the bootstrap configuration |
| ConsoleDriverBuilders.ConsoleDriverBuilder.CreateConsoleDriverBuilderContext | src/Akeraiotitasoft.ConsoleDriving/ConsoleDriverBuilder.cs:180-187 | a new context shares the builder's own property bag and holds the environment and the bootstrap configuration |
| ConsoleDriverBuilders.ConsoleDriverBuilder.BuildAppConfiguration | src/Akeraiotitasoft.ConsoleDriving/ConsoleDriverBuilder.cs:189-199 | app actions see the bootstrap configuration in the context; afterwards the context holds the app configuration |
| ConsoleDriverBuilders.ConsoleDriverBuilder.CreateServiceProvider | src/Akeraiotitasoft.ConsoleDriving/ConsoleDriverBuilder.cs:201-230 | the provider is the one ServiceStage describes; an exception from either factory call propagates, and a null provider throws InvalidOperationException |
| ConsoleDriverBuilders.ConsoleDriverBuilder.ApplyServicesActions | src/Akeraiotitasoft.ConsoleDriving/ConsoleDriverBuilder.cs:203-215 | a new collection holds the built-ins and then what each services action adds, in order |
| ConsoleDriverBuilders.ConsoleDriverBuilder.ApplyContainerActions | src/Akeraiotitasoft.ConsoleDriving/ConsoleDriverBuilder.cs:219-222 | each container action runs in order on the one builder |
| ConsoleDriverBuilderExtensions.InMemoryAction | src/Akeraiotitasoft.ConsoleDriving/ConsoleDrivingConsoleDriverBuilderExtensions.cs:36-43 | the action adds exactly the one pair; a null value throws ArgumentNullException when the action runs |
| ConsoleDriverBuilderExtensions.UseEnvironment | src/Akeraiotitasoft.ConsoleDriving/ConsoleDrivingConsoleDriverBuilderExtensions.cs:34-44 | appends exactly one bootstrap action setting "environment", even for a null value |
| ConsoleDriverBuilderExtensions.UseContentRoot | src/Akeraiotitasoft.ConsoleDriving/ConsoleDrivingConsoleDriverBuilderExtensions.cs:52-62 | appends exactly one bootstrap action setting "contentRoot", even for a null value |
| ConsoleDriverBuilderExtensions.InMemoryActionWins | src/Akeraiotitasoft.ConsoleDriving/ConsoleDrivingConsoleDriverBuilderExtensions.cs:38-42 | after the action runs, every key equal to its key, ignoring case, reads its value |
| ConsoleDriverBuilderExtensions.UseEnvironmentNamesEnvironment | src/Akeraiotitasoft.ConsoleDriving/ConsoleDrivingConsoleDriverBuilderExtensions.cs:34-44 | the last UseEnvironment names the environment, whatever came before |
| ConsoleDriverBuilderExtensions.UseContentRootSetsContentRoot | src/Akeraiotitasoft.ConsoleDriving/ConsoleDrivingConsoleDriverBuilderExtensions.cs:52-62 | the last UseContentRoot decides the content root |
| ConsoleDriverBuilderExtensions.UseEnvironmentNullFailsAtBuild | src/Akeraiotitasoft.ConsoleDriving/ConsoleDrivingConsoleDriverBuilderExtensions.cs:36-41 | a null environment throws ArgumentNullException("environment") when Build replays the action |
| ConsoleDriverBuilderExtensions.DefaultProviderResolver | src/Akeraiotitasoft.ConsoleDriving/ConsoleDrivingConsoleDriverBuilderExtensions.cs:81-86 | the resolver calls configure once with the context and fresh options and yields a default factory over them; exceptions propagate |
| ConsoleDriverBuilderExtensions.DefaultProviderResolverFits | src/Akeraiotitasoft.ConsoleDriving/ConsoleDrivingConsoleDriverBuilderExtensions.cs:81-86 | every factory the resolver yields is over the service collection |
| ConsoleDriverBuilderExtensions.UseDefaultServiceProvider | src/Akeraiotitasoft.ConsoleDriving/ConsoleDrivingConsoleDriverBuilderExtensions.cs:79-87 | installs a deferred adapter with that resolver, replacing any earlier one |
| ConsoleDriverBuilderExtensions.IgnoreContextOptions | src/Akeraiotitasoft.ConsoleDriving/ConsoleDrivingConsoleDriverBuilderExtensions.cs:70-71 | the wrapper ignores the context, and a null configure throws when called |
| ConsoleDriverBuilderExtensions.UseDefaultServiceProviderIgnoringContext | src/Akeraiotitasoft.ConsoleDriving/ConsoleDrivingConsoleDriverBuilderExtensions.cs:70-71 | the same deferred default factory, with the context-ignoring wrapper |
| ConsoleDriverBuilderExtensions.IgnoreContext | src/Akeraiotitasoft.ConsoleDriving/ConsoleDrivingConsoleDriverBuilderExtensions.cs:129-132 | the wrapper ignores the context, and a null action throws when it runs |
| ConsoleDriverBuilderExtensions.LoggingServicesAction | src/Akeraiotitasoft.ConsoleDriving/ConsoleDrivingConsoleDriverBuilderExtensions.cs:95-98 | the action registers the logging services and then what the logging delegate adds; a null delegate throws when it runs |
| ConsoleDriverBuilderExtensions.ConfigureLogging | src/Akeraiotitasoft.ConsoleDriving/ConsoleDrivingConsoleDriverBuilderExtensions.cs:95-98 | appends exactly one services action and nothing else |
| ConsoleDriverBuilderExtensions.ConfigureLoggingIgnoringContext | src/Akeraiotitasoft.ConsoleDriving/ConsoleDrivingConsoleDriverBuilderExtensions.cs:106-109 | appends exactly one services action and nothing else |
| ConsoleDriverBuilderExtensions.IgnoreContextConfig | src/Akeraiotitasoft.ConsoleDriving/ConsoleDrivingConsoleDriverBuilderExtensions.cs:118-121 | the wrapper ignores the context, and a null action throws when it runs |
| ConsoleDriverBuilderExtensions.ConfigureAppConfiguration | src/Akeraiotitasoft.ConsoleDriving/ConsoleDrivingConsoleDriverBuilderExtensions.cs:118-121 | appends exactly one app action, which ignores the context |
| ConsoleDriverBuilderExtensions.ConfigureServices | src/Akeraiotitasoft.ConsoleDriving/ConsoleDrivingConsoleDriverBuilderExtensions.cs:129-132 | appends exactly one services action, which ignores the context |
| ConsoleDriverBuilderExtensions.ConfigureContainer | src/Akeraiotitasoft.ConsoleDriving/ConsoleDrivingConsoleDriverBuilderExtensions.cs:142-145 | appends exactly one container action for the declared type, which ignores the context |
| ConsoleDriverExtensions.Start | src/Akeraiotitasoft.ConsoleDriving.Abstractions/ConsoleDrivingAbstractionsConsoleDriverExtensions.cs:24-27 | returns exactly what StartAsync returns with the default token and does not dispose |
| ConsoleDriverExtensions.RunAsync | src/Akeraiotitasoft.ConsoleDriving.Abstractions/ConsoleDrivingAbstractionsConsoleDriverExtensions.cs:45-51 | returns StartAsync's result and disposes the driver afterwards, even when StartAsync threw |
| ConsoleDriverExtensions.Run | src/Akeraiotitasoft.ConsoleDriving.Abstractions/ConsoleDrivingAbstractionsConsoleDriverExtensions.cs:34-37 | returns exactly what RunAsync returns with the default token |
| ConsoleDriverBuilderStartExtensions.StartAsync | src/Akeraiotitasoft.ConsoleDriving.Abstractions/ConsoleDrivingAbstractionsConsoleDriverBuilderExtensions.cs:35-40 | builds once, then runs the drivers; returns the started driver, not disposed, and discards the exit code |
| ConsoleDriverBuilderStartExtensions.Start | src/Akeraiotitasoft.ConsoleDriving.Abstractions/ConsoleDrivingAbstractionsConsoleDriverBuilderExtensions.cs:24-27 | StartAsync with the default token: a build failure, a driver's exception, or the started driver, not disposed, with both log events |
| ConsoleDriverBuilderStartExtensions.StartTwice | src/Akeraiotitasoft.ConsoleDriving.Abstractions/ConsoleDrivingAbstractionsConsoleDriverBuilderExtensions.cs:37 | a second Start on the same builder throws, because Build is one-shot |

## Left out

- `ConfigureDefaults` and `CreateDefaultBuilder` are not modelled. They read environment variables, JSON files and
  user secrets, and detect the OS; all of that is I/O or foreign code. Their registrations are ordinary calls of the
  modelled methods.
- The configuration and DI libraries are not modelled. This includes `ConfigurationBuilder.Build`,
  `AddInMemoryCollection`, `AddConfiguration`, `ServiceCollection`, `GetRequiredService` and
  `GetService<IEnumerable<IDriver>>`. They are assumed to act as ordered lists; see above.
- `AddOptions`/`AddLogging` are modelled as one marker registration each. `TryAdd` de-duplication is not modelled.
- Callbacks are modelled as pure functions of what they see. A callback that writes to the builder context, the
  property bag, or entries and registrations that already exist is not modelled.
- `PhysicalFileProvider` is modelled only by its root. It is assumed to accept every resolved root, including
  a relative one.
- `AppContext.BaseDirectory` and the current directory are parameters.
- Path operations follow POSIX rules. Windows drive letters and `..`/`.` normalisation are not modelled.
- Case folding covers ASCII letters only. Non-ASCII folding is not modelled.
- Container-builder types must match exactly. A cast to a base type or interface of the builder's type is not modelled.
- ServiceFactoryAdapters.ServiceFactoryAdapter.CreateServiceProvider: the default factory never throws. The
  `ValidateScopes`/`ValidateOnBuild` checks it would run over the container are carried as options but not performed.
  A custom factory can throw from either call, and that exception propagates.
- Logging output is not modelled, only a ghost trace of the Starting/Stopped hooks.
- `Task`, `await` and `GetAwaiter().GetResult()` are not modelled; execution is sequential.
  Cancellation tokens are passed through and never observed.
- The resolved console driver is always the built-in `ConsoleDriver`. Replacing the `IConsoleDriver`
  registration is not modelled.
- The extension methods take a non-null builder or driver. Calling one on null throws NullReferenceException,
  and that is not modelled.
- The copy of the builder extension methods in `src/Akeraiotitasoft.ConsoleDriver/ConsoleDrivingConsoleDriverBuilderExtensions.cs`
  is modelled once.
- ConsoleDriverBuilders.ConsoleDriverBuilder.Build: on a failing step, the contract says what `Build` returns and
  that the flag is set. It does not say which fields earlier steps had already assigned.
- ConsoleDriverBuilders.ConsoleDriverBuilder.UseServiceProviderFactory: the type argument is checked statically, so a
  factory whose container type differs from the declared one is excluded by a precondition.
- ConsoleDrivers.ConsoleDriver.StartAsync: a service provider that yields no `IEnumerable<IDriver>` (null) is not
  modelled, because the default container always yields a sequence.
