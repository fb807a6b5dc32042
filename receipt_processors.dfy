/**
 * The Receipt participant's command processor: it parses an
 * IssueReceiptCommand, issues a receipt for the header's transaction,
 * persists the aggregate and produces ReceiptIssuedEvent; an exception on
 * that path is answered with OtherReasonReceiptFailedEvent.
 */
module ReceiptProcessors {
  import opened Basics
  import opened Messaging
  import opened Collectors
  import opened Encodings
  import opened ExecutedTransferModel
  import Events = ReceiptServiceEventFactory

  /** The GUIDs and clock reading one command uses. */
  datatype ReceiptDraws = ReceiptDraws(eventId: string, failureEventId: string, now: DateTime)

  /** The repository and producer after a command, and how the processor call ended. */
  datatype Effects = Effects(repository: Store<ExecutedTransferRecord>, producer: Store<Event>, result: Result<Unit, Exception>)

  /**
   * `CreateReceiptAsync`: the receipt is issued for `header?.TransactionId`
   * (the content is not read), the aggregate persisted, then the event
   * produced.
   */
  function Attempt(header: Option<MessageHeader>, d: ReceiptDraws, formatDate: DateTime -> string,
                   repository: Store<ExecutedTransferRecord>, producer: Store<Event>): Effects
  {
    var issued := Issue(NewExecutedTransfer(HeaderTransactionId(header), d.now), formatDate, d.eventId, d.now);
    var saved := AddTo(repository, issued.record);
    if saved.fault.Some? then Effects(saved.store, producer, Err(saved.fault.value))
    else
      var sent := AddTo(producer, issued.event);
      Effects(saved.store, sent.store, Completion(sent.fault))
  }

  /** `ProcessFailure`: OtherReasonReceiptFailedEvent for `header.TransactionId`; a null header throws there. */
  function Failure(header: Option<MessageHeader>, exception: Exception, d: ReceiptDraws,
                   repository: Store<ExecutedTransferRecord>, producer: Store<Event>): Effects
  {
    if header.None? then Effects(repository, producer, Err(NullDereference))
    else
      var sent := AddTo(producer, Events.BuildOtherReasonReceiptFailedEvent(header.value.transactionId, exception,
                                                                          d.failureEventId, d.now));
      Effects(repository, sent.store, Completion(sent.fault))
  }

  /** `ProcessAsync`: parsing sits outside the try; the attempt's exceptions go to the failure path. */
  function Process(container: CommandContainer, d: ReceiptDraws, formatDate: DateTime -> string,
                   repository: Store<ExecutedTransferRecord>, producer: Store<Event>): Effects
  {
    match container.parsed
    case Err(e) => Effects(repository, producer, Err(e))
    case Ok(command) =>
      var attempt := Attempt(command.header, d, formatDate, repository, producer);
      if attempt.result.Ok? then attempt
      else Failure(command.header, attempt.result.error, d, attempt.repository, attempt.producer)
  }

  /**
   * On the normal path exactly one ISSUED aggregate for the header's
   * transaction is persisted, dated by the clock, with a 64-digit
   * signature, and exactly one ReceiptIssuedEvent for the same transaction
   * carrying that signature is produced. A command without a header is
   * still receipted, under a null transaction id.
   */
  lemma NormalPathIssuesReceipt(command: Command, d: ReceiptDraws, formatDate: DateTime -> string,
                                repository: Store<ExecutedTransferRecord>, producer: Store<Event>)
    requires repository.calls !in repository.faults && producer.calls !in producer.faults
    ensures var e := Process(CommandContainer(Ok(command)), d, formatDate, repository, producer);
      && e.result == Ok(Unit)
      && |e.repository.items| == |repository.items| + 1 && e.repository.items[..|repository.items|] == repository.items
      && |e.producer.items| == |producer.items| + 1 && e.producer.items[..|producer.items|] == producer.items
      && var saved := e.repository.items[|repository.items|];
         var sent := e.producer.items[|producer.items|];
         && saved.state == ISSUED && saved.transactionId == HeaderTransactionId(command.header)
         && saved.transferDate == d.now
         && |saved.receiptSignature| == 64 && IsLowerHex(saved.receiptSignature)
         && sent.kind == ReceiptIssuedEvent && sent.content == ReceiptContent(saved.receiptSignature)
         && sent.header.transactionId == HeaderTransactionId(command.header)
  {
    var t := NewExecutedTransfer(HeaderTransactionId(command.header), d.now);
    IssueSignsIssuedText(t, formatDate, d.eventId, d.now);
    SignatureShape(Issue(t, formatDate, d.eventId, d.now).record, formatDate);
  }

  /** The command's content is never read: commands with the same header are processed alike. */
  lemma ContentIsIgnored(c1: Command, c2: Command, d: ReceiptDraws, formatDate: DateTime -> string,
                         repository: Store<ExecutedTransferRecord>, producer: Store<Event>)
    requires c1.header == c2.header
    ensures Process(CommandContainer(Ok(c1)), d, formatDate, repository, producer)
         == Process(CommandContainer(Ok(c2)), d, formatDate, repository, producer)
  {
  }

  /**
   * When persisting throws, the failure event carrying the exception's
   * message follows, or, without a header, the failure path itself throws
   * on the null header and nothing is produced.
   */
  lemma FaultsReachFailurePath(command: Command, d: ReceiptDraws, formatDate: DateTime -> string,
                               repository: Store<ExecutedTransferRecord>, producer: Store<Event>)
    requires repository.calls in repository.faults
    ensures var e := Process(CommandContainer(Ok(command)), d, formatDate, repository, producer);
      && e.repository.items == repository.items
      && (command.header.None? ==> e.result == Err(NullDereference) && e.producer == producer)
      && (command.header.Some? && producer.calls !in producer.faults ==>
            && e.result == Ok(Unit) && e.producer.items == producer.items + [e.producer.items[|producer.items|]]
            && e.producer.items[|producer.items|].kind == OtherReasonReceiptFailedEvent
            && e.producer.items[|producer.items|].content == ErrorContent(repository.faults[repository.calls].Message()))
  {
  }

  /** A container that does not parse throws what parsing throws, with no effect. */
  lemma ParseFailurePropagates(e: Exception, d: ReceiptDraws, formatDate: DateTime -> string,
                               repository: Store<ExecutedTransferRecord>, producer: Store<Event>)
    ensures Process(CommandContainer(Err(e)), d, formatDate, repository, producer) == Effects(repository, producer, Err(e))
  {
  }

  /** `IssueReceiptCommandProcessor`, with the sinks it shares. */
  datatype IssueReceiptCommandProcessor = IssueReceiptCommandProcessor(
    eventProducer: Collector<Event>, repository: Collector<ExecutedTransferRecord>)
  {
    /** `ProcessAsync(commandContainer)`. */
    method ProcessAsync(container: CommandContainer, d: ReceiptDraws, formatDate: DateTime -> string)
      returns (r: Result<Unit, Exception>)
      modifies eventProducer, repository
      ensures Effects(repository.State(), eventProducer.State(), r)
           == Process(container, d, formatDate, old(repository.State()), old(eventProducer.State()))
    {
      if container.parsed.Err? {
        return Err(container.parsed.error);
      }
      var command := container.parsed.value;
      var attempt := CreateReceiptAsync(command.header, d, formatDate);
      if attempt.Ok? {
        return attempt;
      }
      r := ProcessFailure(command.header, attempt.error, d);
    }

    /** `CreateReceiptAsync(header, content)`. */
    method CreateReceiptAsync(header: Option<MessageHeader>, d: ReceiptDraws, formatDate: DateTime -> string)
      returns (r: Result<Unit, Exception>)
      modifies eventProducer, repository
      ensures Effects(repository.State(), eventProducer.State(), r)
           == Attempt(header, d, formatDate, old(repository.State()), old(eventProducer.State()))
    {
      var transactionId := HeaderTransactionId(header);
      var executedTransfer := new ExecutedTransfer(transactionId, d.now);
      var receiptIssued := executedTransfer.IssueReceipt(formatDate, d.eventId, d.now);
      var fault := repository.Add(executedTransfer.Snapshot());
      if fault.Some? {
        return Err(fault.value);
      }
      fault := eventProducer.Add(receiptIssued);
      r := Completion(fault);
    }

    /** `ProcessFailure(header, exception)`. */
    method ProcessFailure(header: Option<MessageHeader>, exception: Exception, d: ReceiptDraws)
      returns (r: Result<Unit, Exception>)
      modifies eventProducer
      ensures Effects(repository.State(), eventProducer.State(), r)
           == Failure(header, exception, d, old(repository.State()), old(eventProducer.State()))
    {
      if header.None? {
        return Err(NullDereference);
      }
      var transferFailed := Events.BuildOtherReasonReceiptFailedEvent(header.value.transactionId, exception,
                                                                     d.failureEventId, d.now);
      var fault := eventProducer.Add(transferFailed);
      r := Completion(fault);
    }
  }
}

/**
 * `ReceiptServiceCommandProcessorFactory.BuildProcessorMap` and the
 * dispatch of one received command through a dispatcher built on it.
 */
module ReceiptServiceCommandProcessorFactory {
  import opened Basics
  import opened Messaging
  import opened Collectors
  import opened Dispatch
  import opened ExecutedTransferModel
  import opened ReceiptProcessors

  /** IssueReceiptCommand to its processor over the shared sinks. */
  function BuildProcessorMap(eventProducer: Collector<Event>, repository: Collector<ExecutedTransferRecord>)
    : map<string, IssueReceiptCommandProcessor>
  {
    map[IssueReceiptCommand.Name() := IssueReceiptCommandProcessor(eventProducer, repository)]
  }

  /** The map has the one key IssueReceiptCommand; a dispatcher can be built on it. */
  lemma ProcessorMapShape(eventProducer: Collector<Event>, repository: Collector<ExecutedTransferRecord>)
    ensures var m := BuildProcessorMap(eventProducer, repository);
      && m.Keys == {"IssueReceiptCommand"}
      && m["IssueReceiptCommand"] == IssueReceiptCommandProcessor(eventProducer, repository)
      && NewDispatcher(Some(m)) == Ok(CommandProcessorDispatcher(m))
  {
  }

  /** A command received by the Receipt service: routed by its message type, or ignored. */
  function Receive(container: Option<CommandContainer>, d: ReceiptDraws, formatDate: DateTime -> string,
                   eventProducer: Collector<Event>, repository: Collector<ExecutedTransferRecord>,
                   repositoryStore: Store<ExecutedTransferRecord>, producerStore: Store<Event>): Effects
  {
    match Route(CommandProcessorDispatcher(BuildProcessorMap(eventProducer, repository)), container)
    case Err(e) => Effects(repositoryStore, producerStore, Err(e))
    case Ok(None) => Effects(repositoryStore, producerStore, Ok(Unit))
    case Ok(Some(p)) => Process(container.value, d, formatDate, repositoryStore, producerStore)
  }

  /**
   * Only IssueReceiptCommand is processed; every other command type is
   * ignored, and a null type throws ArgumentNullException with no effect.
   */
  lemma OnlyReceiptCommandsAreProcessed(command: Command, d: ReceiptDraws, formatDate: DateTime -> string,
                                        eventProducer: Collector<Event>, repository: Collector<ExecutedTransferRecord>,
                                        repositoryStore: Store<ExecutedTransferRecord>, producerStore: Store<Event>)
    requires command.header.Some?
    ensures var c := CommandContainer(Ok(command));
      Receive(Some(c), d, formatDate, eventProducer, repository, repositoryStore, producerStore)
      == if command.header.value.messageType.None?
         then Effects(repositoryStore, producerStore, Err(ArgumentNullException("key")))
         else if command.header.value.messageType.value == "IssueReceiptCommand"
         then Process(c, d, formatDate, repositoryStore, producerStore)
         else Effects(repositoryStore, producerStore, Ok(Unit))
  {
    var m := BuildProcessorMap(eventProducer, repository);
    ProcessorMapShape(eventProducer, repository);
    var messageType := command.header.value.messageType;
    var routed := Route(CommandProcessorDispatcher(m), Some(CommandContainer(Ok(command))));
    if messageType.Some? {
      assert routed == Ok(if messageType.value in m then Some(m[messageType.value]) else None);
      assert messageType.value in m <==> messageType.value == "IssueReceiptCommand";
    }
  }

  /** `ProcessCommandAsync` of a dispatcher over the Receipt processor map. */
  method ProcessCommandAsync(eventProducer: Collector<Event>, repository: Collector<ExecutedTransferRecord>,
                             container: Option<CommandContainer>, d: ReceiptDraws, formatDate: DateTime -> string)
    returns (r: Result<Unit, Exception>)
    modifies eventProducer, repository
    ensures Effects(repository.State(), eventProducer.State(), r)
         == Receive(container, d, formatDate, eventProducer, repository, old(repository.State()), old(eventProducer.State()))
  {
    var built := NewDispatcher(Some(BuildProcessorMap(eventProducer, repository)));
    var routed := Route(built.value, container);
    match routed
    case Err(e) => r := Err(e);
    case Ok(None) => r := Ok(Unit);
    case Ok(Some(processor)) => r := processor.ProcessAsync(container.value, d, formatDate);
  }
}
