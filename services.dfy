/**
 * The dependency-injection abstraction the pipeline drives: registrations, the
 * mutable service collection, the built service provider, and the drivers it
 * yields. The container library itself is external; what the pipeline relies
 * on is stated here: a collection is an ordered list of registrations, and
 * resolving every `IDriver` yields one driver per `IDriver` registration, in
 * registration order.
 */
module Services {
  import opened Wrappers

  /** The command-line arguments object; the array it holds may be null. */
  datatype CommandLineArguments = CommandLineArguments(arguments: Option<seq<string>>)

  /** An opaque cancellation token; `CancellationToken.None` is the default. */
  datatype CancellationToken = CancellationToken(id: nat)
  const DefaultToken: CancellationToken := CancellationToken(0)

  /** What one driver's `ExecuteAsync` does: complete with an exit code, or throw. */
  datatype DriverOutcome = Exits(code: int) | Throws(error: Exception)

  /** A driver's `ExecuteAsync(args, cancellationToken)`. */
  type DriverFn = (Option<seq<string>>, CancellationToken) -> DriverOutcome

  /** The service types the model distinguishes. */
  datatype ServiceTag =
    | CommandLineArgumentsService   // ICommandLineArguments
    | EnvironmentService            // IConsoleDrivingEnvironment
    | BuilderContextService         // ConsoleDriverBuilderContext
    | ConfigurationService          // IConfiguration
    | ConsoleDriverService          // IConsoleDriver
    | OptionsServices               // what AddOptions registers
    | LoggingServices               // what AddLogging registers
    | DriverService                 // IDriver
    | OtherService(name: string)

  /**
   * How a registration is implemented: an instance, a type, or an `IDriver`
   * implementation (a type or an instance), which carries its `ExecuteAsync`.
   */
  datatype Implementation =
    | Instance(name: string)
    | ImplementationType(name: string)
    | DriverType(name: string, execute: DriverFn)

  datatype Lifetime = Singleton | Scoped | Transient

  /** A `ServiceDescriptor`: the service, its implementation and its lifetime. */
  datatype ServiceDescriptor = ServiceDescriptor(service: ServiceTag, implementation: Implementation, lifetime: Lifetime)

  /**
   * A registration the collection can hold: whatever implements `IDriver` is a
   * driver, as the generic registration methods guarantee for `TImplementation : IDriver`.
   */
  type Registration = d: ServiceDescriptor | d.service == DriverService ==> d.implementation.DriverType?
    witness ServiceDescriptor(OtherService(""), Instance(""), Singleton)

  /** The drivers `GetService<IEnumerable<IDriver>>` yields: one per `IDriver` registration, in order. */
  function Drivers(registrations: seq<Registration>): seq<DriverFn>
    decreases |registrations|
  {
    if registrations == [] then []
    else
      var last := registrations[|registrations| - 1];
      Drivers(registrations[..|registrations| - 1]) +
      (if last.service == DriverService then [last.implementation.execute] else [])
  }

  /** Resolving drivers distributes over concatenated registration lists. */
  lemma {:induction false} DriversOfConcat(first: seq<Registration>, second: seq<Registration>)
    ensures Drivers(first + second) == Drivers(first) + Drivers(second)
  {
    if second == [] {
      assert first + second == first;
    } else {
      var n := |second| - 1;
      assert (first + second)[..|first + second| - 1] == first + second[..n];
      DriversOfConcat(first, second[..n]);
    }
  }

  /** Registrations of other services yield no driver. */
  lemma {:induction false} NoDriverRegistrations(registrations: seq<Registration>)
    requires forall i :: 0 <= i < |registrations| ==> registrations[i].service != DriverService
    ensures Drivers(registrations) == []
  {
    if registrations != [] {
      NoDriverRegistrations(registrations[..|registrations| - 1]);
    }
  }

  /** The runtime type of a container builder, standing for `TContainerBuilder`. */
  datatype TypeTag = ServiceCollectionType | ContainerBuilderType(name: string)

  /** An `IServiceCollection`: an ordered list of registrations changed in place. */
  class ServiceCollection {
    var registrations: seq<Registration>

    constructor (initial: seq<Registration>)
      ensures registrations == initial
    {
      registrations := initial;
    }

    /** Appends registrations in order. */
    method AddRange(items: seq<Registration>)
      modifies this
      ensures registrations == old(registrations) + items
    {
      registrations := registrations + items;
    }
  }

  /** A container builder passed around as an untyped object: its runtime type and the registrations it holds. */
  datatype ContainerBuilder = ContainerBuilder(runtimeType: TypeTag, target: ServiceCollection)

  /** A built `IServiceProvider`. */
  class ServiceProvider {
    const registrations: seq<Registration>
    const disposable: bool
    var disposed: bool

    constructor (registrations: seq<Registration>, disposable: bool)
      ensures this.registrations == registrations && this.disposable == disposable && !disposed
    {
      this.registrations := registrations;
      this.disposable := disposable;
      disposed := false;
    }

    method Dispose()
      requires disposable
      modifies this
      ensures disposed
    {
      disposed := true;
    }
  }
}
