/**
 * The type-checked container-configuration adapter: it remembers the declared
 * container-builder type of a `ConfigureContainer<TContainerBuilder>` callback
 * and checks the untyped builder against it before calling the callback.
 */
module ConfigureContainerAdapters {
  import opened Wrappers
  import opened Services
  import opened BuilderContexts

  /**
   * `Action<ConsoleDriverBuilderContext, TContainerBuilder>`: given the context and
   * the registrations the builder holds, the registrations it adds, or an exception.
   */
  type ContainerAction = (ContextView, seq<Registration>) -> Result<seq<Registration>>

  datatype ConfigureContainerAdapter = ConfigureContainerAdapter(containerType: TypeTag, action: ContainerAction)

  /** The constructor: a null action is rejected; otherwise the action is stored for good. */
  function NewConfigureContainerAdapter(containerType: TypeTag, action: Option<ContainerAction>): (r: Result<ConfigureContainerAdapter>)
    ensures action.None? <==> r == Failure(ArgumentNull("action"))
    ensures action.Some? ==> r.Success? && r.value.containerType == containerType && r.value.action == action.value
  {
    if action.None? then Failure(ArgumentNull("action")) else Success(ConfigureContainerAdapter(containerType, action.value))
  }

  /**
   * `ConfigureContainer(context, containerBuilder)`: the cast to the declared type
   * fails on a builder of another type (an error, never a silent no-op);
   * otherwise the stored action runs once on that builder, and what it adds is
   * what the call adds.
   */
  function ConfigureContainer(adapter: ConfigureContainerAdapter, context: ContextView, builderType: TypeTag,
                              builderContents: seq<Registration>): (r: Result<seq<Registration>>)
    ensures builderType != adapter.containerType ==> r == Failure(InvalidCast)
    ensures builderType == adapter.containerType ==> r == adapter.action(context, builderContents)
  {
    if builderType != adapter.containerType then Failure(InvalidCast) else adapter.action(context, builderContents)
  }
}
