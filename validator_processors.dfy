/**
 * The Validator participant's command processors: each parses its command,
 * builds an `InitialTransfer`, runs the operation, persists the aggregate
 * and produces the operation's event; an exception on that path is
 * answered with a typed failure event instead.
 */
module ValidatorProcessors {
  import opened Basics
  import opened Messaging
  import opened Collectors
  import opened InitialTransferModel
  import Events = ValidatorServiceEventFactory

  /** The GUIDs and clock reading one command uses. */
  datatype ValidatorDraws = ValidatorDraws(eventId: string, failureEventId: string, now: DateTime)

  /** The repository and producer after a command, and how the processor call ended. */
  datatype Effects = Effects(repository: Store<InitialTransferRecord>, producer: Store<Event>, result: Result<Unit, Exception>)

  /** The aggregate a command's details build, before its operation runs. */
  function NewRecord(transactionId: Option<string>, t: TransactionDetails): InitialTransferRecord
  {
    InitialTransferRecord(transactionId, Account(t.accountFromId), Account(t.accountToId), Amount(t.amount), NONE)
  }

  /** The operation of the processor: validation, or cancellation when `cancel`. */
  function Operation(cancel: bool, t: InitialTransferRecord, d: ValidatorDraws): Verdict
  {
    if cancel then Cancellation(t, d.eventId, d.now) else Validation(t, d.eventId, d.now)
  }

  /**
   * `ValidateAsync` / `CancelTransfer`: reading the accounts of a null
   * transaction dereferences null; otherwise the aggregate is built, its
   * operation run, the aggregate persisted and then the event produced.
   */
  function Attempt(cancel: bool, command: Command, d: ValidatorDraws,
                   repository: Store<InitialTransferRecord>, producer: Store<Event>): Effects
  {
    if command.transaction.None? then Effects(repository, producer, Err(NullDereference))
    else
      var t := NewRecord(HeaderTransactionId(command.header), command.transaction.value);
      var v := Operation(cancel, t, d);
      var saved := AddTo(repository, t.(state := v.state));
      if saved.fault.Some? then Effects(saved.store, producer, Err(saved.fault.value))
      else
        var sent := AddTo(producer, v.event);
        Effects(saved.store, sent.store, Completion(sent.fault))
  }

  /**
   * `ProcessFailure` / `ProcessCancellationFailure`: an
   * OtherReasonValidationFailedEvent (TransferNotCanceledEvent for a
   * cancellation) for `header.TransactionId`; a null header throws there.
   */
  function Failure(cancel: bool, header: Option<MessageHeader>, exception: Exception, d: ValidatorDraws,
                   repository: Store<InitialTransferRecord>, producer: Store<Event>): Effects
  {
    if header.None? then Effects(repository, producer, Err(NullDereference))
    else
      var transactionId := header.value.transactionId;
      var failed := if cancel then Events.BuildTransferNotCanceledEvent(transactionId, exception, d.failureEventId, d.now)
                    else Events.BuildOtherReasonValidationFailedEvent(transactionId, exception, d.failureEventId, d.now);
      var sent := AddTo(producer, failed);
      Effects(repository, sent.store, Completion(sent.fault))
  }

  /** `ProcessAsync`: parsing sits outside the try; the attempt's exceptions go to the failure path. */
  function Process(cancel: bool, container: CommandContainer, d: ValidatorDraws,
                   repository: Store<InitialTransferRecord>, producer: Store<Event>): Effects
  {
    match container.parsed
    case Err(e) => Effects(repository, producer, Err(e))
    case Ok(command) =>
      var attempt := Attempt(cancel, command, d, repository, producer);
      if attempt.result.Ok? then attempt
      else Failure(cancel, command.header, attempt.result.error, d, attempt.repository, attempt.producer)
  }

  /**
   * On the normal path exactly one aggregate is persisted, in the state its
   * operation left it, and then exactly one event, the operation's, is
   * produced. A business-invalid transfer is not an exception: the INVALID
   * aggregate is persisted and its Invalid*Event produced.
   */
  lemma NormalPathPersistsThenProduces(cancel: bool, command: Command, d: ValidatorDraws,
                                       repository: Store<InitialTransferRecord>, producer: Store<Event>)
    requires command.transaction.Some?
    requires repository.calls !in repository.faults && producer.calls !in producer.faults
    ensures var t := NewRecord(HeaderTransactionId(command.header), command.transaction.value);
      var v := Operation(cancel, t, d);
      var e := Process(cancel, CommandContainer(Ok(command)), d, repository, producer);
      && e.result == Ok(Unit)
      && e.repository.items == repository.items + [t.(state := v.state)]
      && e.producer.items == producer.items + [v.event]
      && (!cancel && v.state == INVALID ==> v.event.kind in {InvalidAccountEvent, InvalidAmountEvent})
  {
    var t := NewRecord(HeaderTransactionId(command.header), command.transaction.value);
    ValidationVerdicts(t, d.eventId, d.now);
  }

  /**
   * A cancellation makes no checks: any command with details persists a
   * CANCELLED aggregate and produces TransferCanceledEvent.
   */
  lemma CancellationAlwaysSucceeds(command: Command, d: ValidatorDraws,
                                   repository: Store<InitialTransferRecord>, producer: Store<Event>)
    requires command.transaction.Some?
    requires repository.calls !in repository.faults && producer.calls !in producer.faults
    ensures var e := Process(true, CommandContainer(Ok(command)), d, repository, producer);
      && e.result == Ok(Unit)
      && e.repository.items[|repository.items|].state == CANCELLED
      && e.producer.items[|producer.items|].kind == TransferCanceledEvent
  {
  }

  /**
   * A command without details fails on the null dereference: with a header,
   * nothing is persisted and the one event produced is the processor's
   * failure event carrying the header's transaction id and the exception's
   * message.
   */
  lemma MissingDetailsReportFailure(cancel: bool, command: Command, d: ValidatorDraws,
                                    repository: Store<InitialTransferRecord>, producer: Store<Event>)
    requires command.transaction.None? && command.header.Some?
    requires producer.calls !in producer.faults
    ensures var e := Process(cancel, CommandContainer(Ok(command)), d, repository, producer);
      && e.result == Ok(Unit)
      && e.repository == repository
      && |e.producer.items| == |producer.items| + 1
      && var failed := e.producer.items[|producer.items|];
         && failed.kind == (if cancel then TransferNotCanceledEvent else OtherReasonValidationFailedEvent)
         && failed.header.transactionId == command.header.value.transactionId
         && failed.content == ErrorContent(NullDereference.Message())
  {
  }

  /**
   * When persisting or producing throws, the failure event follows, or,
   * without a header, the failure path itself throws on the null header.
   */
  lemma FaultsReachFailurePath(cancel: bool, command: Command, d: ValidatorDraws,
                               repository: Store<InitialTransferRecord>, producer: Store<Event>)
    requires command.transaction.Some? && repository.calls in repository.faults
    ensures var e := Process(cancel, CommandContainer(Ok(command)), d, repository, producer);
      && (command.header.None? ==> e.result == Err(NullDereference) && e.producer == producer)
      && (command.header.Some? && producer.calls !in producer.faults ==>
            e.result == Ok(Unit) && |e.producer.items| == |producer.items| + 1
            && e.producer.items[|producer.items|].content == ErrorContent(repository.faults[repository.calls].Message()))
  {
  }

  /** A container that does not parse throws what parsing throws, with no effect. */
  lemma ParseFailurePropagates(cancel: bool, e: Exception, d: ValidatorDraws,
                               repository: Store<InitialTransferRecord>, producer: Store<Event>)
    ensures Process(cancel, CommandContainer(Err(e)), d, repository, producer) == Effects(repository, producer, Err(e))
  {
  }

  /** A Validator command processor, with the sinks it shares. */
  datatype ValidatorProcessor =
    | ValidateTransferCommandProcessor(eventProducer: Collector<Event>, repository: Collector<InitialTransferRecord>)
    | CancelTransferCommandProcessor(eventProducer: Collector<Event>, repository: Collector<InitialTransferRecord>)
  {
    predicate Cancels()
    {
      CancelTransferCommandProcessor?
    }

    /** `ProcessAsync(commandContainer)`. */
    method ProcessAsync(container: CommandContainer, d: ValidatorDraws) returns (r: Result<Unit, Exception>)
      modifies eventProducer, repository
      ensures Effects(repository.State(), eventProducer.State(), r)
           == Process(Cancels(), container, d, old(repository.State()), old(eventProducer.State()))
    {
      if container.parsed.Err? {
        return Err(container.parsed.error);
      }
      var command := container.parsed.value;
      var attempt := OperationAsync(command, d);
      if attempt.Ok? {
        return attempt;
      }
      r := ProcessFailure(command.header, attempt.error, d);
    }

    /** `ValidateAsync` / `CancelTransfer`. */
    method OperationAsync(command: Command, d: ValidatorDraws) returns (r: Result<Unit, Exception>)
      modifies eventProducer, repository
      ensures Effects(repository.State(), eventProducer.State(), r)
           == Attempt(Cancels(), command, d, old(repository.State()), old(eventProducer.State()))
    {
      var transactionId := HeaderTransactionId(command.header);
      if command.transaction.None? {
        return Err(NullDereference);
      }
      var transaction := command.transaction.value;
      var initialTransfer := new InitialTransfer(transactionId, transaction.accountFromId,
                                                 transaction.accountToId, transaction.amount);
      var event;
      if Cancels() {
        event := initialTransfer.CancelTransfer(d.eventId, d.now);
      } else {
        event := initialTransfer.ValidateTransfer(d.eventId, d.now);
      }
      var fault := repository.Add(initialTransfer.Snapshot());
      if fault.Some? {
        return Err(fault.value);
      }
      fault := eventProducer.Add(event);
      r := Completion(fault);
    }

    /** `ProcessFailure` / `ProcessCancellationFailure`. */
    method ProcessFailure(header: Option<MessageHeader>, exception: Exception, d: ValidatorDraws)
      returns (r: Result<Unit, Exception>)
      modifies eventProducer
      ensures Effects(repository.State(), eventProducer.State(), r)
           == Failure(Cancels(), header, exception, d, old(repository.State()), old(eventProducer.State()))
    {
      if header.None? {
        return Err(NullDereference);
      }
      var failed;
      if Cancels() {
        failed := Events.BuildTransferNotCanceledEvent(header.value.transactionId, exception, d.failureEventId, d.now);
      } else {
        failed := Events.BuildOtherReasonValidationFailedEvent(header.value.transactionId, exception, d.failureEventId, d.now);
      }
      var fault := eventProducer.Add(failed);
      r := Completion(fault);
    }
  }
}

/**
 * `ValidatorServiceCommandProcessorFactory.BuildProcessorMap` and the
 * dispatch of one received command through a dispatcher built on it.
 */
module ValidatorServiceCommandProcessorFactory {
  import opened Basics
  import opened Messaging
  import opened Collectors
  import opened Dispatch
  import opened InitialTransferModel
  import opened ValidatorProcessors

  /** ValidateTransferCommand and CancelTransferCommand, each to its processor over the shared sinks. */
  function BuildProcessorMap(eventProducer: Collector<Event>, repository: Collector<InitialTransferRecord>)
    : map<string, ValidatorProcessor>
  {
    map[ValidateTransferCommand.Name() := ValidateTransferCommandProcessor(eventProducer, repository),
        CancelTransferCommand.Name() := CancelTransferCommandProcessor(eventProducer, repository)]
  }

  /**
   * The map has exactly the two Validator commands as keys, each bound to
   * its processor over the shared sinks; a dispatcher can be built on it.
   */
  lemma ProcessorMapShape(eventProducer: Collector<Event>, repository: Collector<InitialTransferRecord>)
    ensures var m := BuildProcessorMap(eventProducer, repository);
      && m.Keys == {"ValidateTransferCommand", "CancelTransferCommand"}
      && m["ValidateTransferCommand"] == ValidateTransferCommandProcessor(eventProducer, repository)
      && m["CancelTransferCommand"] == CancelTransferCommandProcessor(eventProducer, repository)
      && NewDispatcher(Some(m)) == Ok(CommandProcessorDispatcher(m))
  {
  }

  /** A command received by the Validator service: routed by its message type, or ignored. */
  function Receive(container: Option<CommandContainer>, d: ValidatorDraws,
                   eventProducer: Collector<Event>, repository: Collector<InitialTransferRecord>,
                   repositoryStore: Store<InitialTransferRecord>, producerStore: Store<Event>): Effects
  {
    match Route(CommandProcessorDispatcher(BuildProcessorMap(eventProducer, repository)), container)
    case Err(e) => Effects(repositoryStore, producerStore, Err(e))
    case Ok(None) => Effects(repositoryStore, producerStore, Ok(Unit))
    case Ok(Some(p)) => Process(p.Cancels(), container.value, d, repositoryStore, producerStore)
  }

  /** TransferCommand and IssueReceiptCommand are ignored: nothing changes and nothing is thrown. */
  lemma OtherCommandsAreIgnored(command: Command, d: ValidatorDraws,
                                eventProducer: Collector<Event>, repository: Collector<InitialTransferRecord>,
                                repositoryStore: Store<InitialTransferRecord>, producerStore: Store<Event>)
    requires command.header.Some?
    requires command.header.value.messageType in {Some(TransferCommand.Name()), Some(IssueReceiptCommand.Name())}
    ensures Receive(Some(CommandContainer(Ok(command))), d, eventProducer, repository, repositoryStore, producerStore)
         == Effects(repositoryStore, producerStore, Ok(Unit))
  {
  }

  /** `ProcessCommandAsync` of a dispatcher over the Validator processor map. */
  method ProcessCommandAsync(eventProducer: Collector<Event>, repository: Collector<InitialTransferRecord>,
                             container: Option<CommandContainer>, d: ValidatorDraws)
    returns (r: Result<Unit, Exception>)
    modifies eventProducer, repository
    ensures Effects(repository.State(), eventProducer.State(), r)
         == Receive(container, d, eventProducer, repository, old(repository.State()), old(eventProducer.State()))
  {
    var built := NewDispatcher(Some(BuildProcessorMap(eventProducer, repository)));
    var routed := Route(built.value, container);
    match routed
    case Err(e) => r := Err(e);
    case Ok(None) => r := Ok(Unit);
    case Ok(Some(processor)) => r := processor.ProcessAsync(container.value, d);
  }
}
