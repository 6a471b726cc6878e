/**
 * The type-erased service-provider factory adapter: it holds either a concrete
 * factory, or a deferred resolver that produces one from the builder context
 * the first time a container builder is requested.
 */
module ServiceFactoryAdapters {
  import opened Wrappers
  import opened Services
  import opened BuilderContexts

  datatype ServiceProviderOptions = ServiceProviderOptions(validateScopes: bool, validateOnBuild: bool)

  /** A fresh `ServiceProviderOptions`: no validation. */
  const DefaultOptions: ServiceProviderOptions := ServiceProviderOptions(false, false)

  /**
   * An `IServiceProviderFactory<TContainerBuilder>`. The default factory uses the
   * service collection itself as its container builder; another factory builds
   * its own container from the registrations, may throw from either of its two
   * methods, and may yield a null provider.
   */
  datatype ServiceProviderFactory =
    | DefaultServiceProviderFactory(options: ServiceProviderOptions)
    | CustomFactory(containerType: TypeTag, builderError: Option<Exception>, providerError: Option<Exception>,
                    yieldsNull: bool, providerDisposable: bool)

  /** The factory's `TContainerBuilder`. */
  function ContainerTypeOf(factory: ServiceProviderFactory): TypeTag
  {
    match factory
    case DefaultServiceProviderFactory(_) => ServiceCollectionType
    case CustomFactory(t, _, _, _, _) => t
  }

  /** `Func<ConsoleDriverBuilderContext, IServiceProviderFactory<T>>`: a factory, null, or an exception. */
  type FactoryResolver = Option<ContextView> -> Result<Option<ServiceProviderFactory>>

  /** Every factory the resolver produces is statically an `IServiceProviderFactory<containerType>`. */
  ghost predicate ResolverFits(resolver: FactoryResolver, containerType: TypeTag)
  {
    forall c :: resolver(c).Success? && resolver(c).value.Some? ==> ContainerTypeOf(resolver(c).value.value) == containerType
  }

  class ServiceFactoryAdapter {
    const containerType: TypeTag
    var factory: Option<ServiceProviderFactory>
    /** Deferred mode: where the context is read when the resolver runs. */
    const contextResolver: ContextSlot?
    /** Deferred mode: the resolver producing the factory. */
    const factoryResolver: Option<FactoryResolver>
    ghost var resolverCalls: nat
    ghost var createBuilderCalls: nat
    ghost var createServiceProviderCalls: nat

    ghost predicate Valid()
      reads this
    {
      && (factoryResolver.Some? <==> contextResolver != null)
      && (factoryResolver.None? ==> factory.Some?)
      && (factory.Some? ==> ContainerTypeOf(factory.value) == containerType)
      && (factoryResolver.Some? ==> ResolverFits(factoryResolver.value, containerType))
    }

    constructor Eager(containerType: TypeTag, factory: ServiceProviderFactory)
      requires ContainerTypeOf(factory) == containerType
      ensures Valid()
      ensures this.containerType == containerType && this.factory == Some(factory)
      ensures contextResolver == null && factoryResolver == None
      ensures resolverCalls == 0 && createBuilderCalls == 0 && createServiceProviderCalls == 0
    {
      this.containerType := containerType;
      this.factory := Some(factory);
      contextResolver := null;
      factoryResolver := None;
      resolverCalls, createBuilderCalls, createServiceProviderCalls := 0, 0, 0;
    }

    constructor Deferred(containerType: TypeTag, contextResolver: ContextSlot, factoryResolver: FactoryResolver)
      requires ResolverFits(factoryResolver, containerType)
      ensures Valid()
      ensures this.containerType == containerType && factory == None
      ensures this.contextResolver == contextResolver && this.factoryResolver == Some(factoryResolver)
      ensures resolverCalls == 0 && createBuilderCalls == 0 && createServiceProviderCalls == 0
    {
      this.containerType := containerType;
      factory := None;
      this.contextResolver := contextResolver;
      this.factoryResolver := Some(factoryResolver);
      resolverCalls, createBuilderCalls, createServiceProviderCalls := 0, 0, 0;
    }

    /** The eager constructor's null check. */
    static method CreateEager(containerType: TypeTag, factory: Option<ServiceProviderFactory>) returns (r: Result<ServiceFactoryAdapter>)
      requires factory.Some? ==> ContainerTypeOf(factory.value) == containerType
      ensures factory.None? ==> r == Failure(ArgumentNull("serviceProviderFactory"))
      ensures factory.Some? ==>
                r.Success? && fresh(r.value) && r.value.Valid() && r.value.containerType == containerType &&
                r.value.factory == factory && r.value.factoryResolver == None
    {
      if factory.None? {
        return Failure(ArgumentNull("serviceProviderFactory"));
      }
      var adapter := new ServiceFactoryAdapter.Eager(containerType, factory.value);
      return Success(adapter);
    }

    /** The deferred constructor's null checks, the context resolver first. */
    static method CreateDeferred(containerType: TypeTag, contextResolver: ContextSlot?, factoryResolver: Option<FactoryResolver>)
      returns (r: Result<ServiceFactoryAdapter>)
      requires factoryResolver.Some? ==> ResolverFits(factoryResolver.value, containerType)
      ensures contextResolver == null ==> r == Failure(ArgumentNull("contextResolver"))
      ensures contextResolver != null && factoryResolver.None? ==> r == Failure(ArgumentNull("factoryResolver"))
      ensures contextResolver != null && factoryResolver.Some? ==>
                r.Success? && fresh(r.value) && r.value.Valid() && r.value.containerType == containerType &&
                r.value.factory == None && r.value.contextResolver == contextResolver &&
                r.value.factoryResolver == factoryResolver
    {
      if contextResolver == null {
        return Failure(ArgumentNull("contextResolver"));
      }
      if factoryResolver.None? {
        return Failure(ArgumentNull("factoryResolver"));
      }
      var adapter := new ServiceFactoryAdapter.Deferred(containerType, contextResolver, factoryResolver.value);
      return Success(adapter);
    }

    /**
     * Resolves the factory if there is none yet (invoking the resolver with the
     * context as it is now, and caching only a non-null result), then asks the
     * factory for a container builder.
     */
    method CreateBuilder(services: ServiceCollection) returns (r: Result<ContainerBuilder>)
      requires Valid()
      modifies this
      ensures Valid()
      ensures createBuilderCalls == old(createBuilderCalls) + 1
      ensures createServiceProviderCalls == old(createServiceProviderCalls)
      ensures old(factory).Some? ==> factory == old(factory) && resolverCalls == old(resolverCalls)
      ensures old(factory).None? ==>
                && resolverCalls == old(resolverCalls) + 1
                && var resolved := factoryResolver.value(SlotView(contextResolver));
                   && (resolved.Failure? ==> r == Failure(resolved.error) && factory == None)
                   && (resolved.Success? && resolved.value.None? ==>
                         r == Failure(InvalidOperation(ResolverReturnedNull)) && factory == None)
                   && (resolved.Success? && resolved.value.Some? ==> factory == resolved.value)
      ensures r.Success? ==> factory.Some?
      ensures factory.Some? && factory.value.DefaultServiceProviderFactory? ==> r.Success?
      ensures factory.Some? && factory.value.CustomFactory? ==>
                if factory.value.builderError.Some? then r == Failure(factory.value.builderError.value) else r.Success?
      ensures r.Success? ==> r.value.runtimeType == containerType
      ensures r.Success? && factory.value.DefaultServiceProviderFactory? ==> r.value.target == services
      ensures r.Success? && factory.value.CustomFactory? ==>
                fresh(r.value.target) && r.value.target.registrations == services.registrations
    {
      createBuilderCalls := createBuilderCalls + 1;
      if factory.None? {
        resolverCalls := resolverCalls + 1;
        var resolved := factoryResolver.value(SlotView(contextResolver));
        if resolved.Failure? {
          return Failure(resolved.error);
        }
        factory := resolved.value;
        if factory.None? {
          return Failure(InvalidOperation(ResolverReturnedNull));
        }
      }
      match factory.value
      case DefaultServiceProviderFactory(_) =>
        r := Success(ContainerBuilder(ServiceCollectionType, services));
      case CustomFactory(t, builderError, _, _, _) =>
        if builderError.Some? {
          return Failure(builderError.value);
        }
        var target := new ServiceCollection(services.registrations);
        r := Success(ContainerBuilder(t, target));
    }

    /**
     * Builds the provider from a container builder: no factory yet is an error,
     * and a builder that is not a `TContainerBuilder` fails the cast.
     */
    method CreateServiceProvider(containerBuilder: ContainerBuilder) returns (r: Result<Option<ServiceProvider>>)
      requires Valid()
      modifies this`createServiceProviderCalls
      ensures createServiceProviderCalls == old(createServiceProviderCalls) + 1
      ensures factory.None? ==> r == Failure(InvalidOperation(CreateBuilderNotCalled))
      ensures factory.Some? && containerBuilder.runtimeType != containerType ==> r == Failure(InvalidCast)
      ensures factory.Some? && containerBuilder.runtimeType == containerType &&
                factory.value.CustomFactory? && factory.value.providerError.Some? ==>
                r == Failure(factory.value.providerError.value)
      ensures factory.Some? && containerBuilder.runtimeType == containerType &&
                !(factory.value.CustomFactory? && factory.value.providerError.Some?) ==>
                && r.Success?
                && (r.value.None? <==> factory.value.CustomFactory? && factory.value.yieldsNull)
                && (r.value.Some? ==>
                      && fresh(r.value.value)
                      && r.value.value.registrations == containerBuilder.target.registrations
                      && r.value.value.disposable == (factory.value.DefaultServiceProviderFactory? || factory.value.providerDisposable)
                      && !r.value.value.disposed)
    {
      createServiceProviderCalls := createServiceProviderCalls + 1;
      if factory.None? {
        return Failure(InvalidOperation(CreateBuilderNotCalled));
      }
      if containerBuilder.runtimeType != containerType {
        return Failure(InvalidCast);
      }
      match factory.value
      case DefaultServiceProviderFactory(_) =>
        var provider := new ServiceProvider(containerBuilder.target.registrations, true);
        r := Success(Some(provider));
      case CustomFactory(_, _, providerError, yieldsNull, providerDisposable) =>
        if providerError.Some? {
          r := Failure(providerError.value);
        } else if yieldsNull {
          r := Success(None);
        } else {
          var provider := new ServiceProvider(containerBuilder.target.registrations, providerDisposable);
          r := Success(Some(provider));
        }
    }
  }
}
