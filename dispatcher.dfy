/**
 * `CommandProcessorDispatcher`: every participant routes each command it
 * receives to the processor registered under the command's message type.
 * The processor type is a parameter; each participant instantiates it with
 * its own processors.
 */
module Dispatch {
  import opened Basics
  import opened Messaging

  /** A dispatcher holds its processor map; the field is readonly, so the dispatcher is a value. */
  datatype CommandProcessorDispatcher<P> = CommandProcessorDispatcher(processors: map<string, P>)

  /** The constructor: a null or empty map throws `new ArgumentException()`. */
  function NewDispatcher<P>(processors: Option<map<string, P>>): (r: Result<CommandProcessorDispatcher<P>, Exception>)
    ensures r.Ok? <==> processors.Some? && |processors.value| > 0
    ensures r.Ok? ==> r.value.processors == processors.value
    ensures r.Err? ==> r.error == DefaultArgumentException
  {
    if processors.None? || |processors.value| == 0 then Err(DefaultArgumentException)
    else Ok(CommandProcessorDispatcher(processors.value))
  }

  /**
   * The part of `ProcessCommandAsync` before the processor runs: which
   * processor receives the container, if any. A null container throws
   * `new ArgumentException()` before anything is parsed; a container that
   * does not parse throws what the parser throws; a parsed command without
   * header throws on the null dereference of `header.MessageType`; and a
   * null message type throws from `ContainsKey`, which rejects a null key.
   */
  function Route<P>(d: CommandProcessorDispatcher<P>, container: Option<CommandContainer>): (r: Result<Option<P>, Exception>)
    ensures container.None? ==> r == Err(DefaultArgumentException)
    ensures container.Some? && container.value.parsed.Err? ==> r == Err(container.value.parsed.error)
    ensures container.Some? && container.value.parsed.Ok? && container.value.parsed.value.header.None?
            ==> r == Err(NullDereference)
    ensures container.Some? && container.value.parsed.Ok? && container.value.parsed.value.header.Some? ==>
      var commandType := container.value.parsed.value.header.value.messageType;
      r == if commandType.None? then Err(ArgumentNullException("key"))
           else Ok(if commandType.value in d.processors then Some(d.processors[commandType.value]) else None)
  {
    if container.None? then Err(DefaultArgumentException)
    else match container.value.parsed
      case Err(e) => Err(e)
      case Ok(command) =>
        if command.header.None? then Err(NullDereference)
        else
          var commandType := command.header.value.messageType;
          if commandType.None? then Err(ArgumentNullException("key"))
          else Ok(if commandType.value in d.processors then Some(d.processors[commandType.value]) else None)
  }

  /**
   * Routing reaches a processor exactly when the container parses, has a
   * header, and its message type is present and a key of the map; that
   * processor is the one registered under the key. A parsed header without
   * a message type throws ArgumentNullException, whatever the map holds.
   */
  lemma RouteFindsRegisteredProcessor<P>(d: CommandProcessorDispatcher<P>, container: Option<CommandContainer>)
    ensures (Route(d, container).Ok? && Route(d, container).value.Some?) <==>
      && container.Some? && container.value.parsed.Ok? && container.value.parsed.value.header.Some?
      && container.value.parsed.value.header.value.messageType.Some?
      && container.value.parsed.value.header.value.messageType.value in d.processors
    ensures Route(d, container).Ok? && Route(d, container).value.Some? ==>
      Route(d, container).value.value == d.processors[container.value.parsed.value.header.value.messageType.value]
    ensures container.Some? && container.value.parsed.Ok? && container.value.parsed.value.header.Some?
            && container.value.parsed.value.header.value.messageType.None?
            ==> Route(d, container) == Err(ArgumentNullException("key"))
  {
  }
}
