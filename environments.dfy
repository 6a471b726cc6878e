/**
 * The environment descriptor, the well-known environment names, and the
 * extension methods that test an environment's name.
 */
module Environments {
  import opened Wrappers
  import opened OrdinalIgnoreCase

  const Development: string := "Development"
  const Staging: string := "Staging"
  const Production: string := "Production"

  /** The file tree rooted at the content root; only its root is modelled. */
  datatype FileProvider = PhysicalFileProvider(root: string)

  /** The environment descriptor; every property may be null. */
  datatype ConsoleDrivingEnvironment = ConsoleDrivingEnvironment(
    environmentName: Option<string>,
    applicationName: Option<string>,
    contentRootPath: Option<string>,
    contentRootFileProvider: Option<FileProvider>)

  /** `string.Equals(a, b, StringComparison.OrdinalIgnoreCase)`: two nulls are equal, a null equals nothing else. */
  predicate NullableEqualsIgnoreCase(a: Option<string>, b: Option<string>)
  {
    match (a, b)
    case (None, None) => true
    case (Some(x), Some(y)) => EqualsIgnoreCase(x, y)
    case _ => false
  }

  /** Whether the environment's name is `environmentName`, ignoring case; a null environment is rejected. */
  function IsEnvironment(env: Option<ConsoleDrivingEnvironment>, environmentName: Option<string>): (r: Result<bool>)
    ensures env.None? <==> r == Failure(ArgumentNull("consoleDriverEnvironment"))
    ensures env.Some? ==> (r.Success? &&
      (r.value <==> match (env.value.environmentName, environmentName)
                    case (None, None) => true
                    case (Some(x), Some(y)) => Upper(x) == Upper(y)
                    case _ => false))
  {
    if env.None? then Failure(ArgumentNull("consoleDriverEnvironment"))
    else
      var r := NullableEqualsIgnoreCase(env.value.environmentName, environmentName);
      assert env.value.environmentName.Some? && environmentName.Some? ==> (r <==> Upper(env.value.environmentName.value) == Upper(environmentName.value)) by {
        if env.value.environmentName.Some? && environmentName.Some? {
          EqualsIgnoreCaseIsUpperEquality(env.value.environmentName.value, environmentName.value);
        }
      }
      Success(r)
  }

  function IsDevelopment(env: Option<ConsoleDrivingEnvironment>): (r: Result<bool>)
    ensures r == IsEnvironment(env, Some(Development))
  {
    if env.None? then Failure(ArgumentNull("consoleDriverEnvironment")) else IsEnvironment(env, Some(Development))
  }

  function IsStaging(env: Option<ConsoleDrivingEnvironment>): (r: Result<bool>)
    ensures r == IsEnvironment(env, Some(Staging))
  {
    if env.None? then Failure(ArgumentNull("consoleDriverEnvironment")) else IsEnvironment(env, Some(Staging))
  }

  function IsProduction(env: Option<ConsoleDrivingEnvironment>): (r: Result<bool>)
    ensures r == IsEnvironment(env, Some(Production))
  {
    if env.None? then Failure(ArgumentNull("consoleDriverEnvironment")) else IsEnvironment(env, Some(Production))
  }

  /** An environment always is its own name. */
  lemma IsEnvironmentReflexive(env: ConsoleDrivingEnvironment)
    ensures IsEnvironment(Some(env), env.environmentName) == Success(true)
  {
    if env.environmentName.Some? {
      EqualsIgnoreCaseIsEquivalence(env.environmentName.value, env.environmentName.value, env.environmentName.value);
    }
  }

  /** Whether one environment is named like another does not depend on which one asks. */
  lemma IsEnvironmentSymmetric(e1: ConsoleDrivingEnvironment, e2: ConsoleDrivingEnvironment)
    ensures IsEnvironment(Some(e1), e2.environmentName) == IsEnvironment(Some(e2), e1.environmentName)
  {
    if e1.environmentName.Some? && e2.environmentName.Some? {
      EqualsIgnoreCaseIsEquivalence(e1.environmentName.value, e2.environmentName.value, e2.environmentName.value);
    }
  }

  /** No environment is more than one of Development, Staging and Production. */
  lemma AtMostOneWellKnownEnvironment(env: ConsoleDrivingEnvironment)
    ensures !(IsDevelopment(Some(env)).value && IsStaging(Some(env)).value)
    ensures !(IsDevelopment(Some(env)).value && IsProduction(Some(env)).value)
    ensures !(IsStaging(Some(env)).value && IsProduction(Some(env)).value)
  {
    if env.environmentName.Some? {
      var n := env.environmentName.value;
      EqualsIgnoreCaseIsEquivalence(Development, n, Staging);
      EqualsIgnoreCaseIsEquivalence(Development, n, Production);
      EqualsIgnoreCaseIsEquivalence(Staging, n, Production);
      EqualsIgnoreCaseIsEquivalence(n, Development, Development);
      EqualsIgnoreCaseIsEquivalence(n, Staging, Staging);
      EqualsIgnoreCaseIsEquivalence(n, Production, Production);
      DifferentLengthsDiffer(Development, Staging);
      DifferentLengthsDiffer(Development, Production);
      DifferentLengthsDiffer(Staging, Production);
    }
  }
}
