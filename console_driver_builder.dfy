/**
 * The console driver builder: four ordered action lists, the installed
 * service-provider factory adapter, and the one-shot `Build` that replays the
 * lists in a fixed order of steps.
 */
module ConsoleDriverBuilders {
  import opened Wrappers
  import opened Configurations
  import opened Environments
  import opened Replays
  import opened Services
  import opened BuilderContexts
  import opened ServiceFactoryAdapters
  import opened ConfigureContainerAdapters
  import opened ConsoleDrivers
  import opened BuildPipeline

  class ConsoleDriverBuilder {
    const commandLineArguments: CommandLineArguments
    /** `Properties`: the shared dictionary, handed on to the builder context. */
    const properties: PropertyBag
    /** The `_consoleDriverBuilderContext` field, which a deferred factory adapter reads when it resolves. */
    const contextSlot: ContextSlot
    var bootstrapActions: seq<ConfigAction>
    var appActions: seq<AppConfigAction>
    var servicesActions: seq<ServicesAction>
    var containerActions: seq<ConfigureContainerAdapter>
    var serviceProviderFactory: ServiceFactoryAdapter
    var built: bool
    var bootstrapConfiguration: Option<Configuration>
    var environment: Option<ConsoleDrivingEnvironment>
    var appConfiguration: Option<Configuration>
    var appServices: ServiceProvider?

    /** The installed adapter is consistent, and a deferred one reads this builder's context. */
    ghost predicate Valid()
      reads this, serviceProviderFactory
    {
      && serviceProviderFactory.Valid()
      && (serviceProviderFactory.contextResolver != null ==> serviceProviderFactory.contextResolver == contextSlot)
    }

    /** What a `Build` from the current registrations would produce. */
    ghost function Planned(process: ProcessState): Result<BuiltState>
      requires Valid()
      reads this, serviceProviderFactory, properties
    {
      Pipeline(bootstrapActions, appActions, servicesActions, containerActions, properties.entries, process,
               serviceProviderFactory.factory, serviceProviderFactory.factoryResolver)
    }

    /** Empty lists, and the default factory over the service collection. */
    constructor (args: Option<seq<string>>)
      ensures Valid() && !built
      ensures commandLineArguments == CommandLineArguments(args)
      ensures bootstrapActions == [] && appActions == [] && servicesActions == [] && containerActions == []
      ensures fresh(properties) && properties.entries == map[]
      ensures fresh(contextSlot) && contextSlot.context == null
      ensures fresh(serviceProviderFactory) && serviceProviderFactory.containerType == ServiceCollectionType
      ensures serviceProviderFactory.factory == Some(DefaultServiceProviderFactory(DefaultOptions))
      ensures serviceProviderFactory.factoryResolver == None
      ensures bootstrapConfiguration == None && environment == None && appConfiguration == None && appServices == null
    {
      commandLineArguments := CommandLineArguments(args);
      properties := new PropertyBag();
      contextSlot := new ContextSlot();
      bootstrapActions, appActions, servicesActions, containerActions := [], [], [], [];
      serviceProviderFactory := new ServiceFactoryAdapter.Eager(ServiceCollectionType, DefaultServiceProviderFactory(DefaultOptions));
      built := false;
      bootstrapConfiguration, environment, appConfiguration, appServices := None, None, None, null;
    }

    /** Appends one bootstrap action; a null delegate is rejected. */
    method ConfigureConsoleDriverConfiguration(configureDelegate: Option<ConfigAction>) returns (r: Result<ConsoleDriverBuilder>)
      modifies this`bootstrapActions
      ensures configureDelegate.None? ==> r == Failure(ArgumentNull("configureDelegate")) && bootstrapActions == old(bootstrapActions)
      ensures configureDelegate.Some? ==> r == Success(this) && bootstrapActions == old(bootstrapActions) + [configureDelegate.value]
    {
      if configureDelegate.None? {
        return Failure(ArgumentNull("configureDelegate"));
      }
      bootstrapActions := bootstrapActions + [configureDelegate.value];
      return Success(this);
    }

    /** Appends one app-configuration action; a null delegate is rejected. */
    method ConfigureAppConfiguration(configureDelegate: Option<AppConfigAction>) returns (r: Result<ConsoleDriverBuilder>)
      modifies this`appActions
      ensures configureDelegate.None? ==> r == Failure(ArgumentNull("configureDelegate")) && appActions == old(appActions)
      ensures configureDelegate.Some? ==> r == Success(this) && appActions == old(appActions) + [configureDelegate.value]
    {
      if configureDelegate.None? {
        return Failure(ArgumentNull("configureDelegate"));
      }
      appActions := appActions + [configureDelegate.value];
      return Success(this);
    }

    /** Appends one services action; a null delegate is rejected. */
    method ConfigureServices(configureDelegate: Option<ServicesAction>) returns (r: Result<ConsoleDriverBuilder>)
      modifies this`servicesActions
      ensures configureDelegate.None? ==> r == Failure(ArgumentNull("configureDelegate")) && servicesActions == old(servicesActions)
      ensures configureDelegate.Some? ==> r == Success(this) && servicesActions == old(servicesActions) + [configureDelegate.value]
    {
      if configureDelegate.None? {
        return Failure(ArgumentNull("configureDelegate"));
      }
      servicesActions := servicesActions + [configureDelegate.value];
      return Success(this);
    }

    /** Appends one container action, wrapped in an adapter for `containerType`; a null delegate is rejected. */
    method ConfigureContainer(containerType: TypeTag, configureDelegate: Option<ContainerAction>) returns (r: Result<ConsoleDriverBuilder>)
      modifies this`containerActions
      ensures configureDelegate.None? ==> r == Failure(ArgumentNull("configureDelegate")) && containerActions == old(containerActions)
      ensures configureDelegate.Some? ==>
                r == Success(this) &&
                containerActions == old(containerActions) + [ConfigureContainerAdapter(containerType, configureDelegate.value)]
    {
      if configureDelegate.None? {
        return Failure(ArgumentNull("configureDelegate"));
      }
      var adapter := NewConfigureContainerAdapter(containerType, configureDelegate);
      containerActions := containerActions + [adapter.value];
      return Success(this);
    }

    /** Replaces the installed adapter with one over `factory`; a null factory is rejected. */
    method UseServiceProviderFactory(containerType: TypeTag, factory: Option<ServiceProviderFactory>) returns (r: Result<ConsoleDriverBuilder>)
      requires factory.Some? ==> ContainerTypeOf(factory.value) == containerType
      modifies this`serviceProviderFactory
      ensures factory.None? ==> r == Failure(ArgumentNull("factory")) && serviceProviderFactory == old(serviceProviderFactory)
      ensures factory.Some? ==>
                && r == Success(this) && Valid()
                && fresh(serviceProviderFactory) && serviceProviderFactory.containerType == containerType
                && serviceProviderFactory.factory == factory && serviceProviderFactory.factoryResolver == None
    {
      if factory.None? {
        return Failure(ArgumentNull("factory"));
      }
      serviceProviderFactory := new ServiceFactoryAdapter.Eager(containerType, factory.value);
      return Success(this);
    }

    /**
     * Replaces the installed adapter with a deferred one that resolves the
     * factory from this builder's context; a null resolver is rejected.
     */
    method UseServiceProviderFactoryDeferred(containerType: TypeTag, factory: Option<FactoryResolver>) returns (r: Result<ConsoleDriverBuilder>)
      requires factory.Some? ==> ResolverFits(factory.value, containerType)
      modifies this`serviceProviderFactory
      ensures factory.None? ==> r == Failure(ArgumentNull("factory")) && serviceProviderFactory == old(serviceProviderFactory)
      ensures factory.Some? ==>
                && r == Success(this) && Valid()
                && fresh(serviceProviderFactory) && serviceProviderFactory.containerType == containerType
                && serviceProviderFactory.factory == None && serviceProviderFactory.factoryResolver == factory
                && serviceProviderFactory.contextResolver == contextSlot
    {
      if factory.None? {
        return Failure(ArgumentNull("factory"));
      }
      serviceProviderFactory := new ServiceFactoryAdapter.Deferred(containerType, contextSlot, factory.value);
      return Success(this);
    }

    /**
     * Runs the steps of a build, once: a second call throws and changes
     * nothing, and the flag is set before any step runs, so a build that
     * throws midway cannot be retried either.
     */
    method Build(process: ProcessState) returns (r: Result<ConsoleDriver>)
      requires Valid()
      modifies this, contextSlot, serviceProviderFactory
      ensures Valid() && built
      ensures serviceProviderFactory == old(serviceProviderFactory)
      ensures bootstrapActions == old(bootstrapActions) && appActions == old(appActions)
      ensures servicesActions == old(servicesActions) && containerActions == old(containerActions)
      ensures old(built) ==> r == Failure(InvalidOperation(BuildCalledTwice)) && unchanged(this, contextSlot, serviceProviderFactory)
      ensures !old(built) && old(Planned(process)).Failure? ==> r == Failure(old(Planned(process)).error)
      ensures !old(built) && old(Planned(process)).Success? ==>
                var s := old(Planned(process)).value;
                && bootstrapConfiguration == Some(s.configured.bootstrap)
                && environment == Some(s.configured.environment)
                && appConfiguration == Some(s.configured.app)
                && contextSlot.context != null && fresh(contextSlot.context)
                && contextSlot.context.properties == properties
                && contextSlot.context.View() == AfterAppConfiguration(s.configured, properties.entries)
                && appServices != null && fresh(appServices) && !appServices.disposed
                && appServices.registrations == s.provider.registrations
                && appServices.disposable == s.provider.disposable
                && r.Success? && fresh(r.value)
                && r.value.services == appServices
                && r.value.commandLineArguments == Some(commandLineArguments)
                && r.value.drivers == [] && r.value.events == [] && r.value.invocations == []
                && serviceProviderFactory.createBuilderCalls == old(serviceProviderFactory.createBuilderCalls) + 1
                && serviceProviderFactory.createServiceProviderCalls == old(serviceProviderFactory.createServiceProviderCalls) + 1
                && serviceProviderFactory.resolverCalls ==
                     old(serviceProviderFactory.resolverCalls) + if old(serviceProviderFactory.factory).None? then 1 else 0
    {
      if built {
        return Failure(InvalidOperation(BuildCalledTwice));
      }
      ghost var planned := Planned(process);
      built := true;
      var outcome := BuildConfigurations(process);
      if outcome.Fail? {
        return Failure(outcome.error);
      }
      outcome := CreateServiceProvider();
      if outcome.Fail? {
        return Failure(outcome.error);
      }
      var driver := new ConsoleDriver(Some(commandLineArguments), appServices, Logger);
      return Success(driver);
    }

    /** The configuration steps of `Build`, in order. */
    method BuildConfigurations(process: ProcessState) returns (r: Outcome)
      modifies this`bootstrapConfiguration, this`environment, this`appConfiguration, contextSlot
      ensures var stage := ConfigurationStage(bootstrapActions, appActions, properties.entries, process);
              && (stage.Failure? ==> r == Fail(stage.error))
              && (stage.Success? ==>
                    && r == Pass
                    && bootstrapConfiguration == Some(stage.value.bootstrap)
                    && environment == Some(stage.value.environment)
                    && appConfiguration == Some(stage.value.app)
                    && contextSlot.context != null && fresh(contextSlot.context)
                    && contextSlot.context.properties == properties
                    && contextSlot.context.View() == AfterAppConfiguration(stage.value, properties.entries))
    {
      var outcome := BuildConsoleDriverConfiguration();
      if outcome.Fail? {
        return outcome;
      }
      outcome := CreateConsoleDrivingEnvironment(process);
      if outcome.Fail? {
        return outcome;
      }
      CreateConsoleDriverBuilderContext();
      outcome := BuildAppConfiguration();
      return outcome;
    }

    /** Replays the bootstrap actions in order on a fresh configuration builder. */
    method BuildConsoleDriverConfiguration() returns (r: Outcome)
      modifies this`bootstrapConfiguration
      ensures var replayed := Replay(bootstrapActions, BootstrapStep(), []);
              && (replayed.Failure? ==> r == Fail(replayed.error) && bootstrapConfiguration == old(bootstrapConfiguration))
              && (replayed.Success? ==> r == Pass && bootstrapConfiguration == Some(Configuration(replayed.value)))
    {
      var entries: seq<Entry> := [];
      var i := 0;
      while i < |bootstrapActions|
        invariant 0 <= i <= |bootstrapActions|
        invariant Replay(bootstrapActions[..i], BootstrapStep(), []) == Success(entries)
        modifies {}
      {
        ReplayStep(bootstrapActions, BootstrapStep(), [], i);
        var added := bootstrapActions[i](entries);
        if added.Failure? {
          ReplayFailureSticks(bootstrapActions, BootstrapStep(), [], i + 1);
          return Fail(added.error);
        }
        entries := entries + added.value;
        i := i + 1;
      }
      assert bootstrapActions[..i] == bootstrapActions;
      bootstrapConfiguration := Some(Configuration(entries));
      return Pass;
    }

    /** Reads the environment descriptor from the bootstrap configuration. */
    method CreateConsoleDrivingEnvironment(process: ProcessState) returns (r: Outcome)
      requires bootstrapConfiguration.Some?
      modifies this`environment
      ensures var created := EnvironmentFor(bootstrapConfiguration.value, process);
              && (created.Failure? ==> r == Fail(created.error) && environment == old(environment))
              && (created.Success? ==> r == Pass && environment == Some(created.value))
    {
      var created := EnvironmentFor(bootstrapConfiguration.value, process);
      if created.Failure? {
        return Fail(created.error);
      }
      environment := Some(created.value);
      return Pass;
    }

    /** A new context over this builder's own property bag, holding the environment and the bootstrap configuration. */
    method CreateConsoleDriverBuilderContext()
      modifies contextSlot
      ensures contextSlot.context != null && fresh(contextSlot.context)
      ensures contextSlot.context.properties == properties
      ensures contextSlot.context.consoleDrivingEnvironment == environment
      ensures contextSlot.context.configuration == bootstrapConfiguration
    {
      var created := ConsoleDriverBuilderContext.Create(properties);
      var context := created.value;
      context.consoleDrivingEnvironment := environment;
      context.configuration := bootstrapConfiguration;
      contextSlot.context := context;
    }

    /**
     * Layers the app actions over the bootstrap configuration, each seeing the
     * context as it is (the bootstrap configuration still installed), then
     * installs the result in the context.
     */
    method BuildAppConfiguration() returns (r: Outcome)
      requires contextSlot.context != null && bootstrapConfiguration.Some?
      modifies this`appConfiguration, contextSlot.context
      ensures var replayed := Replay(appActions, AppStep(old(contextSlot.context.View())), bootstrapConfiguration.value.entries);
              && (replayed.Failure? ==>
                    r == Fail(replayed.error) && appConfiguration == old(appConfiguration) && unchanged(contextSlot.context))
              && (replayed.Success? ==>
                    && r == Pass && appConfiguration == Some(Configuration(replayed.value))
                    && contextSlot.context.configuration == appConfiguration
                    && contextSlot.context.consoleDrivingEnvironment == old(contextSlot.context.consoleDrivingEnvironment))
    {
      var context := contextSlot.context;
      var view := context.View();
      var entries := bootstrapConfiguration.value.entries;
      var i := 0;
      while i < |appActions|
        invariant 0 <= i <= |appActions|
        invariant Replay(appActions[..i], AppStep(view), bootstrapConfiguration.value.entries) == Success(entries)
        modifies {}
      {
        ReplayStep(appActions, AppStep(view), bootstrapConfiguration.value.entries, i);
        var added := appActions[i](view, entries);
        if added.Failure? {
          ReplayFailureSticks(appActions, AppStep(view), bootstrapConfiguration.value.entries, i + 1);
          return Fail(added.error);
        }
        entries := entries + added.value;
        i := i + 1;
      }
      assert appActions[..i] == appActions;
      appConfiguration := Some(Configuration(entries));
      context.configuration := appConfiguration;
      return Pass;
    }

    /**
     * Registers the built-ins, replays the services actions, asks the adapter
     * for one container builder, replays the container actions on that same
     * builder, and asks the adapter for the provider; a null provider is an error.
     */
    method CreateServiceProvider() returns (r: Outcome)
      requires Valid() && contextSlot.context != null
      modifies this`appServices, serviceProviderFactory
      ensures Valid()
      ensures var stage := ServiceStage(servicesActions, containerActions, contextSlot.context.View(),
                                        old(serviceProviderFactory.factory), serviceProviderFactory.factoryResolver);
              && (stage.Failure? ==> r == Fail(stage.error))
              && (stage.Success? ==>
                    && r == Pass && appServices != null && fresh(appServices) && !appServices.disposed
                    && appServices.registrations == stage.value.registrations
                    && appServices.disposable == stage.value.disposable
                    && serviceProviderFactory.createBuilderCalls == old(serviceProviderFactory.createBuilderCalls) + 1
                    && serviceProviderFactory.createServiceProviderCalls == old(serviceProviderFactory.createServiceProviderCalls) + 1
                    && serviceProviderFactory.resolverCalls ==
                         old(serviceProviderFactory.resolverCalls) + if old(serviceProviderFactory.factory).None? then 1 else 0)
    {
      var view := contextSlot.context.View();
      var collected := ApplyServicesActions(view);
      if collected.Failure? {
        return Fail(collected.error);
      }
      var services := collected.value;
      var created := serviceProviderFactory.CreateBuilder(services);
      if created.Failure? {
        return Fail(created.error);
      }
      var containerBuilder := created.value;
      var configured := ApplyContainerActions(containerActions, view, containerBuilder.runtimeType, containerBuilder.target);
      if configured.Fail? {
        return configured;
      }
      var provided := serviceProviderFactory.CreateServiceProvider(containerBuilder);
      if provided.Failure? {
        return Fail(provided.error);
      }
      appServices := if provided.value.Some? then provided.value.value else null;
      if appServices == null {
        return Fail(InvalidOperation(NullServiceProvider));
      }
      return Pass;
    }

    /** A new service collection holding the built-ins, then what each services action adds, in order. */
    method ApplyServicesActions(context: ContextView) returns (r: Result<ServiceCollection>)
      ensures var replayed := Replay(servicesActions, ServicesStep(context), BuiltIns());
              && (replayed.Failure? ==> r == Failure(replayed.error))
              && (replayed.Success? ==> r.Success? && fresh(r.value) && r.value.registrations == replayed.value)
    {
      var services := new ServiceCollection(BuiltIns());
      var i := 0;
      while i < |servicesActions|
        invariant 0 <= i <= |servicesActions|
        invariant Replay(servicesActions[..i], ServicesStep(context), BuiltIns()) == Success(services.registrations)
        modifies services
      {
        ReplayStep(servicesActions, ServicesStep(context), BuiltIns(), i);
        var added := servicesActions[i](context, services.registrations);
        if added.Failure? {
          ReplayFailureSticks(servicesActions, ServicesStep(context), BuiltIns(), i + 1);
          return Failure(added.error);
        }
        services.AddRange(added.value);
        i := i + 1;
      }
      assert servicesActions[..i] == servicesActions;
      return Success(services);
    }

    /** Runs each container action, through its adapter, on the one container builder whose registrations `target` holds. */
    static method ApplyContainerActions(actions: seq<ConfigureContainerAdapter>, context: ContextView, builderType: TypeTag,
                                        target: ServiceCollection) returns (r: Outcome)
      modifies target
      ensures var replayed := Replay(actions, ContainerStep(context, builderType), old(target.registrations));
              && (replayed.Failure? ==> r == Fail(replayed.error))
              && (replayed.Success? ==> r == Pass && target.registrations == replayed.value)
    {
      var j := 0;
      while j < |actions|
        invariant 0 <= j <= |actions|
        invariant Replay(actions[..j], ContainerStep(context, builderType), old(target.registrations)) == Success(target.registrations)
      {
        ReplayStep(actions, ContainerStep(context, builderType), old(target.registrations), j);
        var added := ConfigureContainerAdapters.ConfigureContainer(actions[j], context, builderType, target.registrations);
        if added.Failure? {
          ReplayFailureSticks(actions, ContainerStep(context, builderType), old(target.registrations), j + 1);
          return Fail(added.error);
        }
        target.AddRange(added.value);
        j := j + 1;
      }
      assert actions[..j] == actions;
      return Pass;
    }
  }
}
