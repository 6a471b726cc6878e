/**
 * The builder context handed to every configuration callback, and the shared
 * property bag it exposes.
 */
module BuilderContexts {
  import opened Wrappers
  import opened Configurations
  import opened Environments

  /** An opaque object identity, for the keys and values of the property bag. */
  datatype ObjectId = ObjectId(id: nat)

  /** `IDictionary<object, object>`: a dictionary shared by reference. */
  class PropertyBag {
    var entries: map<ObjectId, ObjectId>

    constructor ()
      ensures entries == map[]
    {
      entries := map[];
    }
  }

  /** What a callback sees of the context when it runs. */
  datatype ContextView = ContextView(
    environment: Option<ConsoleDrivingEnvironment>,
    configuration: Option<Configuration>,
    properties: map<ObjectId, ObjectId>)

  class ConsoleDriverBuilderContext {
    /** The property bag: fixed at construction (no setter), the very object passed in. */
    const properties: PropertyBag
    var consoleDrivingEnvironment: Option<ConsoleDrivingEnvironment>
    var configuration: Option<Configuration>

    constructor (properties: PropertyBag)
      ensures this.properties == properties
      ensures consoleDrivingEnvironment == None && configuration == None
    {
      this.properties := properties;
      consoleDrivingEnvironment := None;
      configuration := None;
    }

    /** The constructor's null check: a null property bag is rejected. */
    static method Create(properties: PropertyBag?) returns (r: Result<ConsoleDriverBuilderContext>)
      ensures properties == null ==> r == Failure(ArgumentNull("properties"))
      ensures properties != null ==>
                r.Success? && fresh(r.value) && r.value.properties == properties &&
                r.value.consoleDrivingEnvironment == None && r.value.configuration == None
    {
      if properties == null {
        return Failure(ArgumentNull("properties"));
      }
      var context := new ConsoleDriverBuilderContext(properties);
      return Success(context);
    }

    function View(): ContextView
      reads this, properties
    {
      ContextView(consoleDrivingEnvironment, configuration, properties.entries)
    }
  }

  /** The builder's context field, which the deferred factory adapter reads when it resolves. */
  class ContextSlot {
    var context: ConsoleDriverBuilderContext?

    constructor ()
      ensures context == null
    {
      context := null;
    }
  }

  /** What invoking a context resolver that reads `slot` returns; null before a context exists. */
  function SlotView(slot: ContextSlot): Option<ContextView>
    reads slot, if slot.context != null then {slot.context, slot.context.properties} else {}
  {
    if slot.context == null then None else Some(slot.context.View())
  }
}
