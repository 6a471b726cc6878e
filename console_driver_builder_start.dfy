/**
 * The extension methods that build a console driver and start it in one go.
 * They return the started driver, not its exit code, and do not dispose it.
 */
module ConsoleDriverBuilderStartExtensions {
  import opened Wrappers
  import opened Services
  import opened BuildPipeline
  import opened ConsoleDrivers
  import opened ConsoleDriverBuilders

  /** Builds once, then runs the drivers with `cancellationToken`; the exit code is discarded. */
  method StartAsync(consoleDriverBuilder: ConsoleDriverBuilder, process: ProcessState, cancellationToken: CancellationToken)
    returns (r: Result<ConsoleDriver>)
    requires consoleDriverBuilder.Valid()
    modifies consoleDriverBuilder, consoleDriverBuilder.contextSlot, consoleDriverBuilder.serviceProviderFactory
    ensures consoleDriverBuilder.Valid() && consoleDriverBuilder.built
    ensures consoleDriverBuilder.serviceProviderFactory == old(consoleDriverBuilder.serviceProviderFactory)
    ensures old(consoleDriverBuilder.built) ==> r == Failure(InvalidOperation(BuildCalledTwice))
    ensures !old(consoleDriverBuilder.built) && old(consoleDriverBuilder.Planned(process)).Failure? ==>
              r == Failure(old(consoleDriverBuilder.Planned(process)).error)
    ensures !old(consoleDriverBuilder.built) && old(consoleDriverBuilder.Planned(process)).Success? ==>
              var registrations := old(consoleDriverBuilder.Planned(process)).value.provider.registrations;
              var run := RunDrivers(Drivers(registrations), Some(consoleDriverBuilder.commandLineArguments), cancellationToken);
              && (run.Failure? ==> r == Failure(run.error))
              && (run.Success? ==>
                    && r.Success? && fresh(r.value)
                    && r.value.services.registrations == registrations
                    && r.value.drivers == Drivers(registrations)
                    && r.value.events == [Starting, Stopped]
                    && !r.value.services.disposed)
  {
    var built := consoleDriverBuilder.Build(process);
    if built.Failure? {
      return Failure(built.error);
    }
    var consoleDriver := built.value;
    var exitCode := consoleDriver.StartAsync(cancellationToken);
    if exitCode.Failure? {
      return Failure(exitCode.error);
    }
    return Success(consoleDriver);
  }

  /** `StartAsync` with the default token, waited for. */
  method Start(consoleDriverBuilder: ConsoleDriverBuilder, process: ProcessState) returns (r: Result<ConsoleDriver>)
    requires consoleDriverBuilder.Valid()
    modifies consoleDriverBuilder, consoleDriverBuilder.contextSlot, consoleDriverBuilder.serviceProviderFactory
    ensures consoleDriverBuilder.Valid() && consoleDriverBuilder.built
    ensures consoleDriverBuilder.serviceProviderFactory == old(consoleDriverBuilder.serviceProviderFactory)
    ensures old(consoleDriverBuilder.built) ==> r == Failure(InvalidOperation(BuildCalledTwice))
    ensures !old(consoleDriverBuilder.built) && old(consoleDriverBuilder.Planned(process)).Failure? ==>
              r == Failure(old(consoleDriverBuilder.Planned(process)).error)
    ensures !old(consoleDriverBuilder.built) && old(consoleDriverBuilder.Planned(process)).Success? ==>
              var registrations := old(consoleDriverBuilder.Planned(process)).value.provider.registrations;
              var run := RunDrivers(Drivers(registrations), Some(consoleDriverBuilder.commandLineArguments), DefaultToken);
              && (run.Failure? ==> r == Failure(run.error))
              && (run.Success? ==>
                    && r.Success? && fresh(r.value)
                    && r.value.services.registrations == registrations
                    && r.value.drivers == Drivers(registrations)
                    && r.value.events == [Starting, Stopped]
                    && !r.value.services.disposed)
  {
    r := StartAsync(consoleDriverBuilder, process, DefaultToken);
  }

  /** Starting the same builder twice: whatever the first call did, the second fails because `Build` is one-shot. */
  method StartTwice(consoleDriverBuilder: ConsoleDriverBuilder, process: ProcessState) returns (first: Result<ConsoleDriver>, second: Result<ConsoleDriver>)
    requires consoleDriverBuilder.Valid()
    modifies consoleDriverBuilder, consoleDriverBuilder.contextSlot, consoleDriverBuilder.serviceProviderFactory
    ensures second == Failure(InvalidOperation(BuildCalledTwice))
  {
    first := Start(consoleDriverBuilder, process);
    second := Start(consoleDriverBuilder, process);
  }
}
