/**
 * The convenience extension methods on the builder. Each one appends exactly
 * one action to one of the builder's lists, or installs a new factory
 * adapter; the null checks on their arguments sit inside the actions, so a
 * null is accepted when registering and fails when `Build` runs the action.
 */
module ConsoleDriverBuilderExtensions {
  import opened Wrappers
  import opened Configurations
  import opened ConsoleDriverDefaults
  import opened Environments
  import opened Replays
  import opened Services
  import opened BuilderContexts
  import opened ServiceFactoryAdapters
  import opened ConfigureContainerAdapters
  import opened BuildPipeline
  import opened ConsoleDriverBuilders

  /** A bootstrap action adding the single pair (`key`, `value`) in memory; a null value throws when it runs. */
  function InMemoryAction(key: string, value: Option<string>, parameterName: string): (r: ConfigAction)
    ensures forall entries :: value.None? ==> r(entries) == Failure(ArgumentNull(parameterName))
    ensures forall entries :: value.Some? ==> r(entries) == Success([Entry(key, value.value)])
  {
    (entries: seq<Entry>) => if value.None? then Failure(ArgumentNull(parameterName)) else Success([Entry(key, value.value)])
  }

  /** Appends one bootstrap action setting "environment". */
  method UseEnvironment(consoleDriverBuilder: ConsoleDriverBuilder, environment: Option<string>) returns (r: Result<ConsoleDriverBuilder>)
    modifies consoleDriverBuilder`bootstrapActions
    ensures r == Success(consoleDriverBuilder)
    ensures consoleDriverBuilder.bootstrapActions ==
              old(consoleDriverBuilder.bootstrapActions) + [InMemoryAction(EnvironmentKey, environment, "environment")]
  {
    r := consoleDriverBuilder.ConfigureConsoleDriverConfiguration(Some(InMemoryAction(EnvironmentKey, environment, "environment")));
  }

  /** Appends one bootstrap action setting "contentRoot". */
  method UseContentRoot(consoleDriverBuilder: ConsoleDriverBuilder, contentRoot: Option<string>) returns (r: Result<ConsoleDriverBuilder>)
    modifies consoleDriverBuilder`bootstrapActions
    ensures r == Success(consoleDriverBuilder)
    ensures consoleDriverBuilder.bootstrapActions ==
              old(consoleDriverBuilder.bootstrapActions) + [InMemoryAction(ContentRootKey, contentRoot, "contentRoot")]
  {
    r := consoleDriverBuilder.ConfigureConsoleDriverConfiguration(Some(InMemoryAction(ContentRootKey, contentRoot, "contentRoot")));
  }

  /** Appending an in-memory pair makes it the value the bootstrap configuration reads for that key. */
  lemma InMemoryActionWins(actions: seq<ConfigAction>, key: string, value: string, parameterName: string)
    requires Replay(actions, BootstrapStep(), []).Success?
    ensures var replayed := Replay(actions + [InMemoryAction(key, Some(value), parameterName)], BootstrapStep(), []);
            && replayed == Success(Replay(actions, BootstrapStep(), []).value + [Entry(key, value)])
            && forall k :: OrdinalIgnoreCase.EqualsIgnoreCase(k, key) ==> Lookup(replayed.value, k) == Some(value)
  {
    var all := actions + [InMemoryAction(key, Some(value), parameterName)];
    assert all[..|all| - 1] == actions;
    var replayed := Replay(all, BootstrapStep(), []);
    forall k | OrdinalIgnoreCase.EqualsIgnoreCase(k, key)
      ensures Lookup(replayed.value, k) == Some(value)
    {
      OrdinalIgnoreCase.EqualsIgnoreCaseIsEquivalence(key, k, k);
      assert replayed.value[..|replayed.value| - 1] == Replay(actions, BootstrapStep(), []).value;
    }
  }

  /** The last `UseEnvironment` names the environment, whatever was configured before it. */
  lemma UseEnvironmentNamesEnvironment(actions: seq<ConfigAction>, name: string, process: ProcessState)
    requires Replay(actions, BootstrapStep(), []).Success?
    ensures var replayed := Replay(actions + [InMemoryAction(EnvironmentKey, Some(name), "environment")], BootstrapStep(), []);
            && replayed.Success?
            && (EnvironmentFor(Configuration(replayed.value), process).Success? ==>
                  EnvironmentFor(Configuration(replayed.value), process).value.environmentName == Some(name))
  {
    InMemoryActionWins(actions, EnvironmentKey, name, "environment");
    OrdinalIgnoreCase.EqualsIgnoreCaseIsEquivalence(EnvironmentKey, EnvironmentKey, EnvironmentKey);
  }

  /** The last `UseContentRoot` decides the content root. */
  lemma UseContentRootSetsContentRoot(actions: seq<ConfigAction>, contentRoot: string, process: ProcessState)
    requires Replay(actions, BootstrapStep(), []).Success?
    ensures var replayed := Replay(actions + [InMemoryAction(ContentRootKey, Some(contentRoot), "contentRoot")], BootstrapStep(), []);
            && replayed.Success?
            && var created := EnvironmentFor(Configuration(replayed.value), process);
               var resolved := ResolveContentRootPath(Some(contentRoot), process.baseDirectory, process.currentDirectory);
               && created.Success? == resolved.Success?
               && (created.Success? ==> created.value.contentRootPath == Some(resolved.value))
  {
    InMemoryActionWins(actions, ContentRootKey, contentRoot, "contentRoot");
    OrdinalIgnoreCase.EqualsIgnoreCaseIsEquivalence(ContentRootKey, ContentRootKey, ContentRootKey);
  }

  /** A null environment is accepted when registering and throws when the bootstrap actions are replayed. */
  lemma UseEnvironmentNullFailsAtBuild(actions: seq<ConfigAction>)
    requires Replay(actions, BootstrapStep(), []).Success?
    ensures Replay(actions + [InMemoryAction(EnvironmentKey, None, "environment")], BootstrapStep(), []) == Failure(ArgumentNull("environment"))
  {
    var all := actions + [InMemoryAction(EnvironmentKey, None, "environment")];
    assert all[..|all| - 1] == actions;
  }

  /** `Action<ConsoleDriverBuilderContext, ServiceProviderOptions>`: the options after it configured them. */
  type OptionsConfigure = (Option<ContextView>, ServiceProviderOptions) -> Result<ServiceProviderOptions>

  /** The resolver `UseDefaultServiceProvider` installs: fresh options, configured once, into a default factory. */
  function DefaultProviderResolver(configure: Option<OptionsConfigure>): (r: FactoryResolver)
    ensures forall context :: configure.None? ==> r(context) == Failure(NullReference)
    ensures forall context :: configure.Some? && configure.value(context, DefaultOptions).Failure? ==>
              r(context) == Failure(configure.value(context, DefaultOptions).error)
    ensures forall context :: configure.Some? && configure.value(context, DefaultOptions).Success? ==>
              r(context) == Success(Some(DefaultServiceProviderFactory(configure.value(context, DefaultOptions).value)))
  {
    (context: Option<ContextView>) =>
      if configure.None? then Failure(NullReference)
      else
        match configure.value(context, DefaultOptions)
        case Failure(e) => Failure(e)
        case Success(options) => Success(Some(DefaultServiceProviderFactory(options)))
  }

  /** Every factory it produces is a default factory, over the service collection. */
  lemma DefaultProviderResolverFits(configure: Option<OptionsConfigure>)
    ensures ResolverFits(DefaultProviderResolver(configure), ServiceCollectionType)
  {
  }

  /** Installs a deferred default factory, replacing any earlier adapter. */
  method UseDefaultServiceProvider(consoleDriverBuilder: ConsoleDriverBuilder, configure: Option<OptionsConfigure>) returns (r: Result<ConsoleDriverBuilder>)
    modifies consoleDriverBuilder`serviceProviderFactory
    ensures r == Success(consoleDriverBuilder) && consoleDriverBuilder.Valid()
    ensures fresh(consoleDriverBuilder.serviceProviderFactory)
    ensures consoleDriverBuilder.serviceProviderFactory.containerType == ServiceCollectionType
    ensures consoleDriverBuilder.serviceProviderFactory.factory == None
    ensures consoleDriverBuilder.serviceProviderFactory.factoryResolver == Some(DefaultProviderResolver(configure))
    ensures consoleDriverBuilder.serviceProviderFactory.contextResolver == consoleDriverBuilder.contextSlot
  {
    DefaultProviderResolverFits(configure);
    r := consoleDriverBuilder.UseServiceProviderFactoryDeferred(ServiceCollectionType, Some(DefaultProviderResolver(configure)));
  }

  /** The context-free `Action<ServiceProviderOptions>`, wrapped so that it ignores the context. */
  function IgnoreContextOptions(configure: Option<ServiceProviderOptions -> Result<ServiceProviderOptions>>): (r: OptionsConfigure)
    ensures forall context, options :: configure.None? ==> r(context, options) == Failure(NullReference)
    ensures forall context, options :: configure.Some? ==> r(context, options) == configure.value(options)
  {
    (context: Option<ContextView>, options: ServiceProviderOptions) =>
      if configure.None? then Failure(NullReference) else configure.value(options)
  }

  /** The context-free overload: the same deferred default factory, with a wrapper that ignores the context. */
  method UseDefaultServiceProviderIgnoringContext(consoleDriverBuilder: ConsoleDriverBuilder,
                                                  configure: Option<ServiceProviderOptions -> Result<ServiceProviderOptions>>)
    returns (r: Result<ConsoleDriverBuilder>)
    modifies consoleDriverBuilder`serviceProviderFactory
    ensures r == Success(consoleDriverBuilder) && consoleDriverBuilder.Valid()
    ensures fresh(consoleDriverBuilder.serviceProviderFactory)
    ensures consoleDriverBuilder.serviceProviderFactory.factory == None
    ensures consoleDriverBuilder.serviceProviderFactory.factoryResolver == Some(DefaultProviderResolver(Some(IgnoreContextOptions(configure))))
  {
    r := UseDefaultServiceProvider(consoleDriverBuilder, Some(IgnoreContextOptions(configure)));
  }

  /** A context-free action on a list of registrations: given those so far, those it adds. */
  type RegistrationsAction = seq<Registration> -> Result<seq<Registration>>

  /** Wraps a context-free action so that it ignores the context; a null action throws when it runs. */
  function IgnoreContext(action: Option<RegistrationsAction>): (r: ServicesAction)
    ensures forall context, registrations :: action.None? ==> r(context, registrations) == Failure(NullReference)
    ensures forall context, registrations :: action.Some? ==> r(context, registrations) == action.value(registrations)
  {
    (context: ContextView, registrations: seq<Registration>) =>
      if action.None? then Failure(NullReference) else action.value(registrations)
  }

  /**
   * The services action `ConfigureLogging` appends: `AddLogging` registers the
   * logging services, then runs the configure delegate on the logging builder.
   */
  function LoggingServicesAction(configureLogging: Option<ServicesAction>): (r: ServicesAction)
    ensures forall context, registrations :: configureLogging.None? ==> r(context, registrations) == Failure(NullReference)
    ensures forall context, registrations :: configureLogging.Some? ==>
              var configured := configureLogging.value(context, registrations + [LoggingRegistration]);
              && (configured.Failure? ==> r(context, registrations) == Failure(configured.error))
              && (configured.Success? ==> r(context, registrations) == Success([LoggingRegistration] + configured.value))
  {
    (context: ContextView, registrations: seq<Registration>) =>
      if configureLogging.None? then Failure(NullReference)
      else
        match configureLogging.value(context, registrations + [LoggingRegistration])
        case Failure(e) => Failure(e)
        case Success(added) => Success([LoggingRegistration] + added)
  }

  /** Appends one services action that configures logging. */
  method ConfigureLogging(consoleDriverBuilder: ConsoleDriverBuilder, configureLogging: Option<ServicesAction>) returns (r: Result<ConsoleDriverBuilder>)
    modifies consoleDriverBuilder`servicesActions
    ensures r == Success(consoleDriverBuilder)
    ensures consoleDriverBuilder.servicesActions == old(consoleDriverBuilder.servicesActions) + [LoggingServicesAction(configureLogging)]
  {
    r := consoleDriverBuilder.ConfigureServices(Some(LoggingServicesAction(configureLogging)));
  }

  /** The context-free overload of `ConfigureLogging`. */
  method ConfigureLoggingIgnoringContext(consoleDriverBuilder: ConsoleDriverBuilder, configureLogging: Option<RegistrationsAction>)
    returns (r: Result<ConsoleDriverBuilder>)
    modifies consoleDriverBuilder`servicesActions
    ensures r == Success(consoleDriverBuilder)
    ensures consoleDriverBuilder.servicesActions ==
              old(consoleDriverBuilder.servicesActions) + [LoggingServicesAction(Some(IgnoreContext(configureLogging)))]
  {
    r := consoleDriverBuilder.ConfigureServices(Some(LoggingServicesAction(Some(IgnoreContext(configureLogging)))));
  }

  /** Wraps a context-free configuration action so that it ignores the context. */
  function IgnoreContextConfig(action: Option<ConfigAction>): (r: AppConfigAction)
    ensures forall context, entries :: action.None? ==> r(context, entries) == Failure(NullReference)
    ensures forall context, entries :: action.Some? ==> r(context, entries) == action.value(entries)
  {
    (context: ContextView, entries: seq<Entry>) => if action.None? then Failure(NullReference) else action.value(entries)
  }

  /** The context-free `ConfigureAppConfiguration`: one app action that ignores the context. */
  method ConfigureAppConfiguration(consoleDriverBuilder: ConsoleDriverBuilder, configureDelegate: Option<ConfigAction>)
    returns (r: Result<ConsoleDriverBuilder>)
    modifies consoleDriverBuilder`appActions
    ensures r == Success(consoleDriverBuilder)
    ensures consoleDriverBuilder.appActions == old(consoleDriverBuilder.appActions) + [IgnoreContextConfig(configureDelegate)]
  {
    r := consoleDriverBuilder.ConfigureAppConfiguration(Some(IgnoreContextConfig(configureDelegate)));
  }

  /** The context-free `ConfigureServices`: one services action that ignores the context. */
  method ConfigureServices(consoleDriverBuilder: ConsoleDriverBuilder, configureDelegate: Option<RegistrationsAction>)
    returns (r: Result<ConsoleDriverBuilder>)
    modifies consoleDriverBuilder`servicesActions
    ensures r == Success(consoleDriverBuilder)
    ensures consoleDriverBuilder.servicesActions == old(consoleDriverBuilder.servicesActions) + [IgnoreContext(configureDelegate)]
  {
    r := consoleDriverBuilder.ConfigureServices(Some(IgnoreContext(configureDelegate)));
  }

  /** The context-free `ConfigureContainer<TContainerBuilder>`: one container action that ignores the context. */
  method ConfigureContainer(consoleDriverBuilder: ConsoleDriverBuilder, containerType: TypeTag, configureDelegate: Option<RegistrationsAction>)
    returns (r: Result<ConsoleDriverBuilder>)
    modifies consoleDriverBuilder`containerActions
    ensures r == Success(consoleDriverBuilder)
    ensures consoleDriverBuilder.containerActions ==
              old(consoleDriverBuilder.containerActions) + [ConfigureContainerAdapter(containerType, IgnoreContext(configureDelegate))]
  {
    r := consoleDriverBuilder.ConfigureContainer(containerType, Some(IgnoreContext(configureDelegate)));
  }
}
