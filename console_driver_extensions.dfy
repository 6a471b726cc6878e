/**
 * The extension methods on a built console driver: `Start` runs it, and
 * `Run`/`RunAsync` run it and then dispose it.
 */
module ConsoleDriverExtensions {
  import opened Wrappers
  import opened Services
  import opened ConsoleDrivers

  /** Runs the drivers with the default token and returns the aggregated exit code; the driver is not disposed. */
  method Start(consoleDriver: ConsoleDriver) returns (r: Result<int>)
    modifies consoleDriver
    ensures consoleDriver.drivers == Drivers(consoleDriver.services.registrations)
    ensures r == RunDrivers(consoleDriver.drivers, consoleDriver.commandLineArguments, DefaultToken)
    ensures consoleDriver.events == old(consoleDriver.events) + [Starting] + (if r.Success? then [Stopped] else [])
    ensures consoleDriver.services.disposed == old(consoleDriver.services.disposed)
  {
    r := consoleDriver.StartAsync(DefaultToken);
  }

  /**
   * Runs the drivers with `token`, then disposes the driver on every path,
   * whether the run completed or threw.
   */
  method RunAsync(consoleDriver: ConsoleDriver, token: CancellationToken) returns (r: Result<int>)
    modifies consoleDriver, consoleDriver.services
    ensures consoleDriver.drivers == Drivers(consoleDriver.services.registrations)
    ensures r == RunDrivers(consoleDriver.drivers, consoleDriver.commandLineArguments, token)
    ensures consoleDriver.events == old(consoleDriver.events) + [Starting] + (if r.Success? then [Stopped] else [])
    ensures consoleDriver.services.disposed == (old(consoleDriver.services.disposed) || consoleDriver.services.disposable)
  {
    r := consoleDriver.StartAsync(token);
    consoleDriver.Dispose();
  }

  /** `RunAsync` with the default token, waited for. */
  method Run(consoleDriver: ConsoleDriver) returns (r: Result<int>)
    modifies consoleDriver, consoleDriver.services
    ensures r == RunDrivers(Drivers(consoleDriver.services.registrations), consoleDriver.commandLineArguments, DefaultToken)
    ensures consoleDriver.services.disposed == (old(consoleDriver.services.disposed) || consoleDriver.services.disposable)
  {
    r := RunAsync(consoleDriver, DefaultToken);
  }
}
