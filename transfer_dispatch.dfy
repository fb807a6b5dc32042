/**
 * `TransferServiceCommandProcessorFactory.BuildProcessorMap` and the
 * dispatch of one received command through a dispatcher built on it.
 */
module TransferServiceCommandProcessorFactory {
  import opened Basics
  import opened Messaging
  import opened Collectors
  import opened Dispatch
  import opened TransferLedger
  import opened TransferProcessors

  /** TransferCommand and CancelTransferCommand, each to its processor over the shared sinks. */
  function BuildProcessorMap(eventProducer: Collector<Event>, repository: Collector<CheckingAccountLine>)
    : map<string, TransferProcessor>
  {
    map[TransferCommand.Name() := TransferCommandProcessor(eventProducer, repository),
        CancelTransferCommand.Name() := CancelTransferCommandProcessor(eventProducer, repository)]
  }

  /**
   * The map has exactly the two Transfer commands as keys, each bound to
   * its own processor, both sharing the given producer and repository; as
   * it is not empty, a dispatcher can be built on it.
   */
  lemma ProcessorMapShape(eventProducer: Collector<Event>, repository: Collector<CheckingAccountLine>)
    ensures var m := BuildProcessorMap(eventProducer, repository);
      && m.Keys == {"TransferCommand", "CancelTransferCommand"}
      && m["TransferCommand"] == TransferCommandProcessor(eventProducer, repository)
      && m["CancelTransferCommand"] == CancelTransferCommandProcessor(eventProducer, repository)
      && NewDispatcher(Some(m)) == Ok(CommandProcessorDispatcher(m))
  {
  }

  /**
   * A command received by the Transfer service: routed by its message type,
   * processed by the matching processor, or ignored when no processor is
   * registered for it.
   */
  function Receive(container: Option<CommandContainer>, draws: TransferDraws,
                   eventProducer: Collector<Event>, repository: Collector<CheckingAccountLine>,
                   repositoryStore: Store<CheckingAccountLine>, producerStore: Store<Event>): Effects
  {
    match Route(CommandProcessorDispatcher(BuildProcessorMap(eventProducer, repository)), container)
    case Err(e) => Effects(repositoryStore, producerStore, Err(e))
    case Ok(None) => Effects(repositoryStore, producerStore, Ok(Unit))
    case Ok(Some(p)) => Process(p.Cancels(), container.value, draws, repositoryStore, producerStore)
  }

  /** Commands of other types (validation, receipts) are ignored: nothing changes and nothing is thrown. */
  lemma OtherCommandsAreIgnored(command: Command, draws: TransferDraws,
                                eventProducer: Collector<Event>, repository: Collector<CheckingAccountLine>,
                                repositoryStore: Store<CheckingAccountLine>, producerStore: Store<Event>)
    requires command.header.Some?
    requires command.header.value.messageType in {Some(ValidateTransferCommand.Name()), Some(IssueReceiptCommand.Name())}
    ensures Receive(Some(CommandContainer(Ok(command))), draws, eventProducer, repository, repositoryStore, producerStore)
         == Effects(repositoryStore, producerStore, Ok(Unit))
  {
  }

  /** A TransferCommand is transferred, a CancelTransferCommand cancelled, and a null type throws with no effect. */
  lemma TransferCommandsReachTheirProcessor(command: Command, draws: TransferDraws,
                                            eventProducer: Collector<Event>, repository: Collector<CheckingAccountLine>,
                                            repositoryStore: Store<CheckingAccountLine>, producerStore: Store<Event>)
    requires command.header.Some?
    ensures var c := CommandContainer(Ok(command));
      var received := Receive(Some(c), draws, eventProducer, repository, repositoryStore, producerStore);
      && (command.header.value.messageType == Some("TransferCommand") ==>
            received == Process(false, c, draws, repositoryStore, producerStore))
      && (command.header.value.messageType == Some("CancelTransferCommand") ==>
            received == Process(true, c, draws, repositoryStore, producerStore))
      && (command.header.value.messageType.None? ==>
            received == Effects(repositoryStore, producerStore, Err(ArgumentNullException("key"))))
  {
  }

  /** `ProcessCommandAsync` of a dispatcher over the Transfer processor map. */
  method ProcessCommandAsync(eventProducer: Collector<Event>, repository: Collector<CheckingAccountLine>,
                             container: Option<CommandContainer>, draws: TransferDraws)
    returns (r: Result<Unit, Exception>)
    modifies eventProducer, repository
    ensures Effects(repository.State(), eventProducer.State(), r)
         == Receive(container, draws, eventProducer, repository, old(repository.State()), old(eventProducer.State()))
  {
    var built := NewDispatcher(Some(BuildProcessorMap(eventProducer, repository)));
    var dispatcher := built.value;
    var routed := Route(dispatcher, container);
    match routed
    case Err(e) => r := Err(e);
    case Ok(None) => r := Ok(Unit);
    case Ok(Some(processor)) => r := processor.ProcessAsync(container.value, draws);
  }
}
