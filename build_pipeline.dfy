/**
 * What one `Build` computes, as functions of the registered actions: the
 * bootstrap configuration, the environment descriptor, the app configuration
 * layered over the bootstrap one, and the registrations of the service
 * provider. The builder's `Build` method is proved against `Pipeline`.
 *
 * Callbacks are modelled by their effect: given what they can see (the
 * context snapshot, and what the builder they are handed holds so far), the
 * entries or registrations they add, or the exception they throw. They only
 * ever add: removing from a configuration builder or a service collection is
 * not modelled.
 */
module BuildPipeline {
  import opened Wrappers
  import opened Configurations
  import opened ConsoleDriverDefaults
  import opened Environments
  import opened Paths
  import opened Replays
  import opened Services
  import opened BuilderContexts
  import opened ServiceFactoryAdapters
  import opened ConfigureContainerAdapters

  /** `Action<IConfigurationBuilder>`: given the entries so far, the entries it adds. */
  type ConfigAction = seq<Entry> -> Result<seq<Entry>>

  /** `Action<ConsoleDriverBuilderContext, IConfigurationBuilder>`. */
  type AppConfigAction = (ContextView, seq<Entry>) -> Result<seq<Entry>>

  /** `Action<ConsoleDriverBuilderContext, IServiceCollection>`: given the registrations so far, those it adds. */
  type ServicesAction = (ContextView, seq<Registration>) -> Result<seq<Registration>>

  /** The process state the build reads: `AppContext.BaseDirectory` and the current directory. */
  datatype ProcessState = ProcessState(baseDirectory: string, currentDirectory: string)

  /** One bootstrap action run on the bootstrap configuration builder. */
  function BootstrapStep(): (seq<Entry>, ConfigAction) -> Result<seq<Entry>>
  {
    (entries: seq<Entry>, action: ConfigAction) =>
      match action(entries)
      case Failure(e) => Failure(e)
      case Success(added) => Success(entries + added)
  }

  /** One app-configuration action run with the context as it is during that loop. */
  function AppStep(context: ContextView): (seq<Entry>, AppConfigAction) -> Result<seq<Entry>>
  {
    (entries: seq<Entry>, action: AppConfigAction) =>
      match action(context, entries)
      case Failure(e) => Failure(e)
      case Success(added) => Success(entries + added)
  }

  /** One services action run on the service collection. */
  function ServicesStep(context: ContextView): (seq<Registration>, ServicesAction) -> Result<seq<Registration>>
  {
    (registrations: seq<Registration>, action: ServicesAction) =>
      match action(context, registrations)
      case Failure(e) => Failure(e)
      case Success(added) => Success(registrations + added)
  }

  /** One container action run, through its adapter, on a container builder of type `builderType`. */
  function ContainerStep(context: ContextView, builderType: TypeTag): (seq<Registration>, ConfigureContainerAdapter) -> Result<seq<Registration>>
  {
    (registrations: seq<Registration>, adapter: ConfigureContainerAdapter) =>
      match ConfigureContainer(adapter, context, builderType, registrations)
      case Failure(e) => Failure(e)
      case Success(added) => Success(registrations + added)
  }

  /** Every step only appends. */
  lemma StepsAppend(context: ContextView, builderType: TypeTag)
    ensures Appending(BootstrapStep())
    ensures Appending(AppStep(context))
    ensures Appending(ServicesStep(context))
    ensures Appending(ContainerStep(context, builderType))
  {
  }

  /**
   * The content root: the base directory when none is configured, a rooted
   * path as it is, and a relative one appended to the full base directory.
   */
  function ResolveContentRootPath(contentRootPath: Option<string>, basePath: string, currentDirectory: string): (r: Result<string>)
    ensures (contentRootPath.None? || contentRootPath.value == []) ==> r == Success(basePath)
    ensures contentRootPath.Some? && IsPathRooted(contentRootPath.value) ==> r == Success(contentRootPath.value)
    ensures contentRootPath.Some? && contentRootPath.value != [] && !IsPathRooted(contentRootPath.value) ==>
              && (r.Success? <==> basePath != [])
              && (r.Failure? ==> r.error == Argument("path"))
              && (r.Success? ==>
                    && (IsPathRooted(basePath) || IsPathRooted(currentDirectory) ==> IsPathRooted(r.value))
                    && var fullBase := GetFullPath(basePath, currentDirectory);
                       && fullBase.Success?
                       && |fullBase.value| + |contentRootPath.value| <= |r.value|
                       && r.value[..|fullBase.value|] == fullBase.value
                       && r.value[|r.value| - |contentRootPath.value|..] == contentRootPath.value)
  {
    if contentRootPath.None? || contentRootPath.value == [] then Success(basePath)
    else if IsPathRooted(contentRootPath.value) then Success(contentRootPath.value)
    else
      match GetFullPath(basePath, currentDirectory)
      case Failure(e) => Failure(e)
      case Success(fullBase) => Success(Combine(fullBase, contentRootPath.value))
  }

  /** With a rooted base directory, the content root is always resolved and rooted. */
  lemma ContentRootIsRooted(contentRootPath: Option<string>, basePath: string, currentDirectory: string)
    requires IsPathRooted(basePath)
    ensures ResolveContentRootPath(contentRootPath, basePath, currentDirectory).Success?
    ensures IsPathRooted(ResolveContentRootPath(contentRootPath, basePath, currentDirectory).value)
  {
  }

  /**
   * The environment descriptor read from the bootstrap configuration: the
   * configured name or "Production", the configured application name (maybe
   * null), and the resolved content root with a file provider over it.
   */
  function EnvironmentFor(bootstrap: Configuration, process: ProcessState): (r: Result<ConsoleDrivingEnvironment>)
    ensures var root := ResolveContentRootPath(Get(bootstrap, ContentRootKey), process.baseDirectory, process.currentDirectory);
            && (root.Failure? ==> r == Failure(root.error))
            && (root.Success? ==>
                  && r.Success?
                  && r.value.contentRootPath == Some(root.value)
                  && r.value.contentRootFileProvider == Some(PhysicalFileProvider(root.value)))
    ensures r.Success? ==> r.value.environmentName.Some? && r.value.applicationName == Get(bootstrap, ApplicationKey)
  {
    match ResolveContentRootPath(Get(bootstrap, ContentRootKey), process.baseDirectory, process.currentDirectory)
    case Failure(e) => Failure(e)
    case Success(root) =>
      var name := Get(bootstrap, EnvironmentKey);
      Success(ConsoleDrivingEnvironment(
        if name.Some? then name else Some(Production),
        Get(bootstrap, ApplicationKey),
        Some(root),
        Some(PhysicalFileProvider(root))))
  }

  /** Without an "environment" entry (in any letter case) the environment is Production. */
  lemma EnvironmentDefaultsToProduction(bootstrap: Configuration, process: ProcessState)
    requires EnvironmentFor(bootstrap, process).Success?
    requires forall j :: 0 <= j < |bootstrap.entries| ==> !OrdinalIgnoreCase.EqualsIgnoreCase(bootstrap.entries[j].key, EnvironmentKey)
    ensures EnvironmentFor(bootstrap, process).value.environmentName == Some(Production)
    ensures IsProduction(Some(EnvironmentFor(bootstrap, process).value)) == Success(true)
  {
    LookupFindsLastMatch(bootstrap.entries, EnvironmentKey);
    IsEnvironmentReflexive(EnvironmentFor(bootstrap, process).value);
  }

  /** With an "environment" entry, the environment is named by the last such entry. */
  lemma EnvironmentNamedByLastEntry(bootstrap: Configuration, process: ProcessState, i: int)
    requires EnvironmentFor(bootstrap, process).Success?
    requires LastMatch(bootstrap.entries, EnvironmentKey, i)
    ensures EnvironmentFor(bootstrap, process).value.environmentName == Some(bootstrap.entries[i].value)
    ensures IsEnvironment(Some(EnvironmentFor(bootstrap, process).value), Some(bootstrap.entries[i].value)) == Success(true)
  {
    LookupFindsLastMatch(bootstrap.entries, EnvironmentKey);
    var k :| LastMatch(bootstrap.entries, EnvironmentKey, k) && bootstrap.entries[k].value == Lookup(bootstrap.entries, EnvironmentKey).value;
    assert k == i;
    IsEnvironmentReflexive(EnvironmentFor(bootstrap, process).value);
  }

  /** What `AddLogging` registers. */
  const LoggingRegistration: Registration := ServiceDescriptor(LoggingServices, ImplementationType("LoggerFactory"), Singleton)

  /** The services `CreateServiceProvider` registers before running any services action. */
  function BuiltIns(): (r: seq<Registration>)
    ensures |r| == 7
    ensures forall i :: 0 <= i < |r| ==> r[i].lifetime == Singleton && r[i].service != DriverService
    ensures r[4] == ServiceDescriptor(ConsoleDriverService, ImplementationType("ConsoleDriver"), Singleton)
  {
    [ ServiceDescriptor(CommandLineArgumentsService, Instance("commandLineArguments"), Singleton),
      ServiceDescriptor(EnvironmentService, Instance("consoleDrivingEnvironment"), Singleton),
      ServiceDescriptor(BuilderContextService, Instance("consoleDriverBuilderContext"), Singleton),
      ServiceDescriptor(ConfigurationService, Instance("appConfiguration"), Singleton),
      ServiceDescriptor(ConsoleDriverService, ImplementationType("ConsoleDriver"), Singleton),
      ServiceDescriptor(OptionsServices, ImplementationType("OptionsManager"), Singleton),
      LoggingRegistration ]
  }

  /**
   * The factory `CreateBuilder` uses: the one already held, or else what the
   * deferred resolver returns for the context it reads; a null is an error.
   */
  function ResolveFactory(factory: Option<ServiceProviderFactory>, resolver: Option<FactoryResolver>, context: Option<ContextView>): (r: Result<ServiceProviderFactory>)
    requires factory.Some? || resolver.Some?
    ensures factory.Some? ==> r == Success(factory.value)
    ensures factory.None? && resolver.value(context).Failure? ==> r == Failure(resolver.value(context).error)
    ensures factory.None? && resolver.value(context).Success? ==>
              (resolver.value(context).value.None? <==> r == Failure(InvalidOperation(ResolverReturnedNull)))
    ensures factory.None? && r.Success? ==> resolver.value(context) == Success(Some(r.value))
  {
    if factory.Some? then Success(factory.value)
    else
      match resolver.value(context)
      case Failure(e) => Failure(e)
      case Success(None) => Failure(InvalidOperation(ResolverReturnedNull))
      case Success(Some(f)) => Success(f)
  }

  /** What the service provider ends up holding, and whether it is disposable. */
  datatype BuiltProvider = BuiltProvider(registrations: seq<Registration>, disposable: bool)

  /**
   * `CreateServiceProvider`: the built-ins, then the services actions in order,
   * then one `CreateBuilder`, the container actions in order on that builder,
   * and one `CreateServiceProvider`; an exception from either factory call
   * propagates, and a null provider is an error.
   */
  function ServiceStage(servicesActions: seq<ServicesAction>, containerActions: seq<ConfigureContainerAdapter>, context: ContextView,
                        factory: Option<ServiceProviderFactory>, resolver: Option<FactoryResolver>): Result<BuiltProvider>
    requires factory.Some? || resolver.Some?
  {
    match Replay(servicesActions, ServicesStep(context), BuiltIns())
    case Failure(e) => Failure(e)
    case Success(registrations) =>
      match ResolveFactory(factory, resolver, Some(context))
      case Failure(e) => Failure(e)
      case Success(f) =>
        if f.CustomFactory? && f.builderError.Some? then Failure(f.builderError.value)
        else
        match Replay(containerActions, ContainerStep(context, ContainerTypeOf(f)), registrations)
        case Failure(e) => Failure(e)
        case Success(final) =>
          if f.CustomFactory? && f.providerError.Some? then Failure(f.providerError.value)
          else if f.CustomFactory? && f.yieldsNull then Failure(InvalidOperation(NullServiceProvider))
          else Success(BuiltProvider(final, f.DefaultServiceProviderFactory? || f.providerDisposable))
  }

  /** The three configuration products of a build. */
  datatype Configured = Configured(bootstrap: Configuration, environment: ConsoleDrivingEnvironment, app: Configuration)

  /** Everything a successful build produces. */
  datatype BuiltState = BuiltState(configured: Configured, provider: BuiltProvider)

  /** The context the app-configuration actions see: the bootstrap configuration is still installed. */
  function DuringAppConfiguration(environment: ConsoleDrivingEnvironment, bootstrap: Configuration, properties: map<ObjectId, ObjectId>): ContextView
  {
    ContextView(Some(environment), Some(bootstrap), properties)
  }

  /** The context everything after app configuration sees: the app configuration replaced the bootstrap one. */
  function AfterAppConfiguration(configured: Configured, properties: map<ObjectId, ObjectId>): ContextView
  {
    ContextView(Some(configured.environment), Some(configured.app), properties)
  }

  /** The first four build steps: bootstrap configuration, environment, context, app configuration. */
  function ConfigurationStage(bootstrapActions: seq<ConfigAction>, appActions: seq<AppConfigAction>,
                              properties: map<ObjectId, ObjectId>, process: ProcessState): Result<Configured>
  {
    match Replay(bootstrapActions, BootstrapStep(), [])
    case Failure(e) => Failure(e)
    case Success(bootstrapEntries) =>
      var bootstrap := Configuration(bootstrapEntries);
      match EnvironmentFor(bootstrap, process)
      case Failure(e) => Failure(e)
      case Success(environment) =>
        match Replay(appActions, AppStep(DuringAppConfiguration(environment, bootstrap, properties)), bootstrapEntries)
        case Failure(e) => Failure(e)
        case Success(appEntries) => Success(Configured(bootstrap, environment, Configuration(appEntries)))
  }

  /** The five build steps in order; the first exception ends the build. */
  function Pipeline(bootstrapActions: seq<ConfigAction>, appActions: seq<AppConfigAction>, servicesActions: seq<ServicesAction>,
                    containerActions: seq<ConfigureContainerAdapter>, properties: map<ObjectId, ObjectId>, process: ProcessState,
                    factory: Option<ServiceProviderFactory>, resolver: Option<FactoryResolver>): Result<BuiltState>
    requires factory.Some? || resolver.Some?
  {
    match ConfigurationStage(bootstrapActions, appActions, properties, process)
    case Failure(e) => Failure(e)
    case Success(configured) =>
      match ServiceStage(servicesActions, containerActions, AfterAppConfiguration(configured, properties), factory, resolver)
      case Failure(e) => Failure(e)
      case Success(provider) => Success(BuiltState(configured, provider))
  }

  /**
   * The app configuration has the bootstrap configuration as its first layer:
   * a key the app actions set reads their last value, any other key reads
   * through to the bootstrap value.
   */
  lemma {:induction false} AppConfigurationLayersOverBootstrap(bootstrapActions: seq<ConfigAction>, appActions: seq<AppConfigAction>,
      properties: map<ObjectId, ObjectId>, process: ProcessState, key: string)
    requires ConfigurationStage(bootstrapActions, appActions, properties, process).Success?
    ensures var c := ConfigurationStage(bootstrapActions, appActions, properties, process).value;
            && c.bootstrap.entries <= c.app.entries
            && var added := c.app.entries[|c.bootstrap.entries|..];
               Get(c.app, key) == if Lookup(added, key).Some? then Lookup(added, key) else Get(c.bootstrap, key)
  {
    var c := ConfigurationStage(bootstrapActions, appActions, properties, process).value;
    var context := DuringAppConfiguration(c.environment, c.bootstrap, properties);
    StepsAppend(context, ServiceCollectionType);
    ReplayKeepsPrefix(appActions, AppStep(context), c.bootstrap.entries);
    var added := c.app.entries[|c.bootstrap.entries|..];
    assert c.app.entries == c.bootstrap.entries + added;
    LookupLayered(c.bootstrap.entries, added, key);
  }

  /**
   * The provider's registrations start with the built-ins, and the drivers it
   * yields are those the services and container actions registered, in the
   * order they registered them.
   */
  lemma {:induction false} RegistrationsStartWithBuiltIns(servicesActions: seq<ServicesAction>, containerActions: seq<ConfigureContainerAdapter>,
      context: ContextView, factory: Option<ServiceProviderFactory>, resolver: Option<FactoryResolver>)
    requires factory.Some? || resolver.Some?
    requires ServiceStage(servicesActions, containerActions, context, factory, resolver).Success?
    ensures var registrations := ServiceStage(servicesActions, containerActions, context, factory, resolver).value.registrations;
            && BuiltIns() <= registrations
            && Drivers(registrations) == Drivers(registrations[|BuiltIns()|..])
  {
    var services := Replay(servicesActions, ServicesStep(context), BuiltIns()).value;
    var f := ResolveFactory(factory, resolver, Some(context)).value;
    StepsAppend(context, ContainerTypeOf(f));
    ReplayKeepsPrefix(servicesActions, ServicesStep(context), BuiltIns());
    ReplayKeepsPrefix(containerActions, ContainerStep(context, ContainerTypeOf(f)), services);
    var registrations := ServiceStage(servicesActions, containerActions, context, factory, resolver).value.registrations;
    assert registrations == BuiltIns() + registrations[|BuiltIns()|..];
    DriversOfConcat(BuiltIns(), registrations[|BuiltIns()|..]);
    NoDriverRegistrations(BuiltIns());
  }

  /**
   * A container action declared for another builder type than the factory's
   * ends the build with a cast failure, once the factory has produced its
   * builder and the actions before it succeeded.
   */
  lemma ContainerTypeMismatchFails(servicesActions: seq<ServicesAction>, containerActions: seq<ConfigureContainerAdapter>,
      context: ContextView, factory: Option<ServiceProviderFactory>, resolver: Option<FactoryResolver>, k: nat)
    requires factory.Some? || resolver.Some?
    requires Replay(servicesActions, ServicesStep(context), BuiltIns()).Success?
    requires ResolveFactory(factory, resolver, Some(context)).Success?
    requires var f := ResolveFactory(factory, resolver, Some(context)).value; !(f.CustomFactory? && f.builderError.Some?)
    requires k < |containerActions|
    requires containerActions[k].containerType != ContainerTypeOf(ResolveFactory(factory, resolver, Some(context)).value)
    requires Replay(containerActions[..k], ContainerStep(context, ContainerTypeOf(ResolveFactory(factory, resolver, Some(context)).value)),
                    Replay(servicesActions, ServicesStep(context), BuiltIns()).value).Success?
    ensures ServiceStage(servicesActions, containerActions, context, factory, resolver) == Failure(InvalidCast)
  {
    var services := Replay(servicesActions, ServicesStep(context), BuiltIns()).value;
    var step := ContainerStep(context, ContainerTypeOf(ResolveFactory(factory, resolver, Some(context)).value));
    ReplayStep(containerActions, step, services, k);
    ReplayFailureSticks(containerActions, step, services, k + 1);
  }
}
