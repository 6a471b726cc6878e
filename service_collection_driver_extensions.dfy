/** `AddDriver<TDriver>`: registering a driver type with a service collection. */
module ServiceCollectionDriverExtensions {
  import opened Wrappers
  import opened Services

  /** The registration `AddDriver` adds for a driver type: `IDriver` implemented by that type, transient. */
  function DriverRegistration(name: string, execute: DriverFn): Registration
  {
    ServiceDescriptor(DriverService, DriverType(name, execute), Transient)
  }

  /**
   * Appends exactly one transient driver registration and hands back the same
   * collection; a null collection is rejected by the registration call.
   */
  method AddDriver(serviceCollection: ServiceCollection?, name: string, execute: DriverFn) returns (r: Result<ServiceCollection>)
    modifies serviceCollection
    ensures serviceCollection == null ==> r == Failure(ArgumentNull("services"))
    ensures serviceCollection != null ==>
              r == Success(serviceCollection) &&
              serviceCollection.registrations == old(serviceCollection.registrations) + [DriverRegistration(name, execute)]
  {
    if serviceCollection == null {
      return Failure(ArgumentNull("services"));
    }
    serviceCollection.AddRange([DriverRegistration(name, execute)]);
    return Success(serviceCollection);
  }

  /** `count` copies of one registration. */
  function Repeat<T>(x: T, count: nat): (r: seq<T>)
    ensures |r| == count && forall i :: 0 <= i < count ==> r[i] == x
  {
    if count == 0 then [] else Repeat(x, count - 1) + [x]
  }

  /**
   * Registering a driver `count` times after existing registrations makes the
   * driver loop run it `count` more times, after the drivers registered before.
   */
  lemma {:induction false} AddDriverRepeated(existing: seq<Registration>, name: string, execute: DriverFn, count: nat)
    ensures Drivers(existing + Repeat(DriverRegistration(name, execute), count)) == Drivers(existing) + Repeat(execute, count)
  {
    DriversOfConcat(existing, Repeat(DriverRegistration(name, execute), count));
    DriversOfRepeat(name, execute, count);
  }

  lemma {:induction false} DriversOfRepeat(name: string, execute: DriverFn, count: nat)
    ensures Drivers(Repeat(DriverRegistration(name, execute), count)) == Repeat(execute, count)
  {
    if count > 0 {
      DriversOfRepeat(name, execute, count - 1);
      var regs := Repeat(DriverRegistration(name, execute), count);
      assert regs[..|regs| - 1] == Repeat(DriverRegistration(name, execute), count - 1);
    }
  }

  /** Driver registrations are enumerated in the order they were added, whatever else is registered in between. */
  lemma DriverOrderFollowsRegistration(before: seq<Registration>, name1: string, execute1: DriverFn,
                                       between: seq<Registration>, name2: string, execute2: DriverFn)
    ensures var drivers := Drivers(before + [DriverRegistration(name1, execute1)] + between + [DriverRegistration(name2, execute2)]);
            var i := |Drivers(before)|;
            var j := i + 1 + |Drivers(between)|;
            j < |drivers| && drivers[i] == execute1 && drivers[j] == execute2
  {
    var r1 := [DriverRegistration(name1, execute1)];
    var r2 := [DriverRegistration(name2, execute2)];
    DriversOfConcat(before, r1);
    DriversOfConcat(before + r1, between);
    DriversOfConcat(before + r1 + between, r2);
    assert Drivers(r1) == [execute1] by { assert r1[..0] == []; }
    assert Drivers(r2) == [execute2] by { assert r2[..0] == []; }
  }
}
