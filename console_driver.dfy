/**
 * The console driver: the object `Build` returns. `StartAsync` runs every
 * registered driver in registration order, one after the other, and returns
 * the last non-zero exit code.
 */
module ConsoleDrivers {
  import opened Wrappers
  import opened Services
  import opened Replays

  /** The `ILogger<ConsoleDriver>` dependency; what it writes is not modelled. */
  datatype Logger = Logger

  /** The two logging hooks the driver loop calls. */
  datatype LogEvent = Starting | Stopped

  /** One call of a driver's `ExecuteAsync`: which driver, with which arguments and token. */
  datatype Invocation = Invocation(driver: nat, args: Option<seq<string>>, token: CancellationToken)

  /** The last non-zero code, or 0 when there is none. */
  function LastNonZero(codes: seq<int>): int
    decreases |codes|
  {
    if codes == [] then 0
    else if codes[|codes| - 1] != 0 then codes[|codes| - 1]
    else LastNonZero(codes[..|codes| - 1])
  }

  /** The aggregate is 0 exactly when every code is 0; otherwise it is a code after which all codes are 0. */
  lemma {:induction false} LastNonZeroCharacterised(codes: seq<int>)
    ensures LastNonZero(codes) == 0 <==> forall i :: 0 <= i < |codes| ==> codes[i] == 0
    ensures LastNonZero(codes) != 0 ==>
              exists i :: 0 <= i < |codes| && codes[i] == LastNonZero(codes) &&
                          forall j :: i < j < |codes| ==> codes[j] == 0
  {
    if codes != [] {
      var n := |codes| - 1;
      var prefix := codes[..n];
      LastNonZeroCharacterised(prefix);
      if codes[n] == 0 {
        assert forall i :: 0 <= i < n ==> prefix[i] == codes[i];
        if LastNonZero(prefix) != 0 {
          var i :| 0 <= i < |prefix| && prefix[i] == LastNonZero(prefix) && forall j :: i < j < |prefix| ==> prefix[j] == 0;
          assert codes[i] == LastNonZero(codes);
        }
      }
    }
  }

  /** The aggregate is the last non-zero code, not the first and not the largest. */
  lemma LastNonZeroExamples()
    ensures LastNonZero([0, 2, 0, 5, 0]) == 5
    ensures LastNonZero([3, 0]) == 3
    ensures LastNonZero([7, 2]) == 2
    ensures LastNonZero([]) == 0
  {
    assert [0, 2, 0, 5, 0][..4] == [0, 2, 0, 5];
    assert [3, 0][..1] == [3];
  }

  /** The argument array drivers receive; null when there is no arguments object. */
  function ArgumentsOf(commandLineArguments: Option<CommandLineArguments>): Option<seq<string>>
  {
    if commandLineArguments.None? then None else commandLineArguments.value.arguments
  }

  /**
   * One turn of the driver loop: read the arguments (a null arguments object
   * throws), run the driver to completion, and keep its code if it is non-zero.
   */
  function ExitStep(commandLineArguments: Option<CommandLineArguments>, token: CancellationToken): (int, DriverFn) -> Result<int>
  {
    (exitCode: int, driver: DriverFn) =>
      if commandLineArguments.None? then Failure(NullReference)
      else
        match driver(commandLineArguments.value.arguments, token)
        case Throws(e) => Failure(e)
        case Exits(code) => Success(if code != 0 then code else exitCode)
  }

  lemma ExitStepOn(commandLineArguments: Option<CommandLineArguments>, token: CancellationToken, exitCode: int, driver: DriverFn)
    requires commandLineArguments.Some?
    ensures var outcome := driver(commandLineArguments.value.arguments, token);
            ExitStep(commandLineArguments, token)(exitCode, driver) ==
            if outcome.Throws? then Failure(outcome.error)
            else Success(if outcome.code != 0 then outcome.code else exitCode)
  {
  }

  /** What the driver loop returns for these drivers. */
  function RunDrivers(drivers: seq<DriverFn>, commandLineArguments: Option<CommandLineArguments>, token: CancellationToken): Result<int>
  {
    Replay(drivers, ExitStep(commandLineArguments, token), 0)
  }

  /** The exit codes of drivers that all complete. */
  function ExitCodes(drivers: seq<DriverFn>, args: Option<seq<string>>, token: CancellationToken): (codes: seq<int>)
    requires forall i :: 0 <= i < |drivers| ==> drivers[i](args, token).Exits?
    ensures |codes| == |drivers| && forall i :: 0 <= i < |drivers| ==> codes[i] == drivers[i](args, token).code
  {
    seq(|drivers|, i requires 0 <= i < |drivers| => drivers[i](args, token).code)
  }

  /** When no driver throws, the loop returns the last non-zero exit code, or 0. */
  lemma {:induction false} RunDriversIsLastNonZero(drivers: seq<DriverFn>, args: Option<seq<string>>, token: CancellationToken)
    requires forall i :: 0 <= i < |drivers| ==> drivers[i](args, token).Exits?
    ensures RunDrivers(drivers, Some(CommandLineArguments(args)), token) == Success(LastNonZero(ExitCodes(drivers, args, token)))
  {
    if drivers != [] {
      var n := |drivers| - 1;
      RunDriversIsLastNonZero(drivers[..n], args, token);
      assert ExitCodes(drivers, args, token)[..n] == ExitCodes(drivers[..n], args, token);
    }
  }

  /** A driver that throws ends the loop with its exception, provided every driver before it completed. */
  lemma RunDriversStopsAtThrow(drivers: seq<DriverFn>, args: Option<seq<string>>, token: CancellationToken, k: nat)
    requires k < |drivers|
    requires forall i :: 0 <= i < k ==> drivers[i](args, token).Exits?
    requires drivers[k](args, token).Throws?
    ensures RunDrivers(drivers, Some(CommandLineArguments(args)), token) == Failure(drivers[k](args, token).error)
  {
    var cla := Some(CommandLineArguments(args));
    RunDriversIsLastNonZero(drivers[..k], args, token);
    ReplayStep(drivers, ExitStep(cla, token), 0, k);
    ReplayFailureSticks(drivers, ExitStep(cla, token), 0, k + 1);
  }

  /** How many drivers the loop calls: up to and including the first that throws; none without an arguments object. */
  function CallCount(drivers: seq<DriverFn>, commandLineArguments: Option<CommandLineArguments>, token: CancellationToken): (n: nat)
    ensures n <= |drivers|
    decreases |drivers|
  {
    if drivers == [] || commandLineArguments.None? then 0
    else if drivers[0](commandLineArguments.value.arguments, token).Throws? then 1
    else 1 + CallCount(drivers[1..], commandLineArguments, token)
  }

  lemma {:induction false} CallCountAllComplete(drivers: seq<DriverFn>, args: Option<seq<string>>, token: CancellationToken)
    requires forall i :: 0 <= i < |drivers| ==> drivers[i](args, token).Exits?
    ensures CallCount(drivers, Some(CommandLineArguments(args)), token) == |drivers|
  {
    if drivers != [] {
      CallCountAllComplete(drivers[1..], args, token);
    }
  }

  lemma {:induction false} CallCountStopsAtThrow(drivers: seq<DriverFn>, args: Option<seq<string>>, token: CancellationToken, k: nat)
    requires k < |drivers|
    requires forall i :: 0 <= i < k ==> drivers[i](args, token).Exits?
    requires drivers[k](args, token).Throws?
    ensures CallCount(drivers, Some(CommandLineArguments(args)), token) == k + 1
  {
    if k > 0 {
      CallCountStopsAtThrow(drivers[1..], args, token, k - 1);
    }
  }

  /** The calls made to the first `n` drivers, all with the same arguments and token. */
  function Calls(n: nat, args: Option<seq<string>>, token: CancellationToken): (calls: seq<Invocation>)
    ensures |calls| == n && forall k :: 0 <= k < n ==> calls[k] == Invocation(k, args, token)
  {
    if n == 0 then [] else Calls(n - 1, args, token) + [Invocation(n - 1, args, token)]
  }

  class ConsoleDriver {
    /** Not checked for null by the constructor. */
    const commandLineArguments: Option<CommandLineArguments>
    const services: ServiceProvider
    const logger: Logger
    var drivers: seq<DriverFn>
    ghost var events: seq<LogEvent>
    ghost var invocations: seq<Invocation>

    constructor (commandLineArguments: Option<CommandLineArguments>, services: ServiceProvider, logger: Logger)
      ensures this.commandLineArguments == commandLineArguments && this.services == services && this.logger == logger
      ensures drivers == [] && events == [] && invocations == []
    {
      this.commandLineArguments := commandLineArguments;
      this.services := services;
      this.logger := logger;
      drivers := [];
      events := [];
      invocations := [];
    }

    /** The constructor's null checks: services first, then the logger; the arguments may be null. */
    static method Create(commandLineArguments: Option<CommandLineArguments>, services: ServiceProvider?, logger: Option<Logger>)
      returns (r: Result<ConsoleDriver>)
      ensures services == null ==> r == Failure(ArgumentNull("services"))
      ensures services != null && logger.None? ==> r == Failure(ArgumentNull("logger"))
      ensures services != null && logger.Some? ==>
                r.Success? && fresh(r.value) && r.value.services == services &&
                r.value.commandLineArguments == commandLineArguments && r.value.events == []
    {
      if services == null {
        return Failure(ArgumentNull("services"));
      }
      if logger.None? {
        return Failure(ArgumentNull("logger"));
      }
      var driver := new ConsoleDriver(commandLineArguments, services, logger.value);
      return Success(driver);
    }

    /** The `Result` property, which is not implemented and always throws. */
    function ReadResult(): (r: Result<int>)
      ensures r.Failure? && r.error == NotImplemented
    {
      Failure(NotImplemented)
    }

    /** Disposes the service provider when, and only when, it is disposable. */
    method Dispose()
      modifies services
      ensures services.disposed == (old(services.disposed) || services.disposable)
    {
      if services.disposable {
        services.Dispose();
      }
    }

    /**
     * Runs the registered drivers strictly in sequence, each with the same
     * arguments and token, and returns the last non-zero exit code. The loop
     * never looks at the token; an exception from a driver ends it, and then
     * the Stopped hook is not called.
     */
    method StartAsync(token: CancellationToken) returns (r: Result<int>)
      modifies this
      ensures drivers == Drivers(services.registrations)
      ensures r == RunDrivers(drivers, commandLineArguments, token)
      ensures events == old(events) + [Starting] + (if r.Success? then [Stopped] else [])
      ensures invocations == old(invocations) + Calls(CallCount(drivers, commandLineArguments, token), ArgumentsOf(commandLineArguments), token)
    {
      events := events + [Starting];
      drivers := Drivers(services.registrations);
      r := ExecuteDrivers(token);
      if r.Success? {
        events := events + [Stopped];
      }
    }

    /** The loop of `StartAsync` over the resolved drivers. */
    method ExecuteDrivers(token: CancellationToken) returns (r: Result<int>)
      modifies this`invocations
      ensures r == RunDrivers(drivers, commandLineArguments, token)
      ensures invocations == old(invocations) + Calls(CallCount(drivers, commandLineArguments, token), ArgumentsOf(commandLineArguments), token)
    {
      var step := ExitStep(commandLineArguments, token);
      var exitCode := 0;
      var i := 0;
      while i < |drivers|
        invariant 0 <= i <= |drivers|
        invariant i > 0 ==> commandLineArguments.Some?
        invariant forall k :: 0 <= k < i ==> drivers[k](ArgumentsOf(commandLineArguments), token).Exits?
        invariant Replay(drivers[..i], step, 0) == Success(exitCode)
        invariant invocations == old(invocations) + Calls(i, ArgumentsOf(commandLineArguments), token)
      {
        ReplayStep(drivers, step, 0, i);
        if commandLineArguments.None? {
          ReplayFailureSticks(drivers, step, 0, i + 1);
          return Failure(NullReference);
        }
        var args := commandLineArguments.value.arguments;
        invocations := invocations + [Invocation(i, args, token)];
        var outcome := drivers[i](args, token);
        ExitStepOn(commandLineArguments, token, exitCode, drivers[i]);
        if outcome.Throws? {
          ReplayFailureSticks(drivers, step, 0, i + 1);
          CallCountStopsAtThrow(drivers, args, token, i);
          return Failure(outcome.error);
        }
        if outcome.code != 0 {
          exitCode := outcome.code;
        }
        i := i + 1;
      }
      assert drivers[..i] == drivers;
      if commandLineArguments.Some? {
        CallCountAllComplete(drivers, commandLineArguments.value.arguments, token);
      }
      return Success(exitCode);
    }
  }
}
