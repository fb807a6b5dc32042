/**
 * The Transfer participant's command processors. Each parses its command,
 * books the ledger lines of a new `CheckingAccountTransfer` in the
 * repository one by one and produces the resulting event; any exception on
 * that path is answered with an OtherReasonTransferFailedEvent instead.
 */
module TransferProcessors {
  import opened Basics
  import opened Messaging
  import opened Collectors
  import opened TransferLedger
  import Events = TransferServiceEventFactory

  /** The GUIDs and clock reading one command uses: those of the ledger operation and the failure event's GUID. */
  datatype TransferDraws = TransferDraws(ledger: LedgerDraws, failureEventId: string)

  /** The repository and producer after a command, and how the processor call ended. */
  datatype Effects = Effects(repository: Store<CheckingAccountLine>, producer: Store<Event>, result: Result<Unit, Exception>)

  /** The ledger lines the operation books (`cancel` selects the cancellation). */
  function OperationLines(cancel: bool, transactionId: Option<string>, t: TransactionDetails, d: LedgerDraws)
    : seq<CheckingAccountLine>
  {
    if cancel then CancelLines(transactionId, t.accountFromId, t.accountToId, t.amount, d)
    else TransferLines(transactionId, t.accountFromId, t.accountToId, t.amount, d)
  }

  /** The event the operation returns. */
  function OperationEvent(cancel: bool, transactionId: Option<string>, d: LedgerDraws): Event
  {
    if cancel then Events.BuildTransferCanceledEvent(transactionId, d.eventId, d.now)
    else Events.BuildTransferSucceededEvent(transactionId, d.eventId, d.now)
  }

  /**
   * `TransferAsync` / `CancelTransferAsync`: reading the accounts of a null
   * transaction dereferences null; a failed validation throws; otherwise the
   * two lines are added in ledger order and then the event is produced.
   */
  function Attempt(cancel: bool, command: Command, d: LedgerDraws,
                   repository: Store<CheckingAccountLine>, producer: Store<Event>): Effects
  {
    var transactionId := HeaderTransactionId(command.header);
    if command.transaction.None? then Effects(repository, producer, Err(NullDereference))
    else
      var t := command.transaction.value;
      var invalid := Validate(transactionId, t.accountFromId, t.accountToId, t.amount);
      if invalid.Some? then Effects(repository, producer, Err(invalid.value))
      else
        var saved := AddEach(repository, OperationLines(cancel, transactionId, t, d));
        if saved.fault.Some? then Effects(saved.store, producer, Err(saved.fault.value))
        else
          var sent := AddTo(producer, OperationEvent(cancel, transactionId, d));
          Effects(saved.store, sent.store, Completion(sent.fault))
  }

  /**
   * `ProcessFailure` / `ProcessCancellationFailureAsync`: produces an
   * OtherReasonTransferFailedEvent for `header.TransactionId`; a null header
   * throws on that dereference.
   */
  function Failure(header: Option<MessageHeader>, exception: Exception, draws: TransferDraws,
                   repository: Store<CheckingAccountLine>, producer: Store<Event>): Effects
  {
    if header.None? then Effects(repository, producer, Err(NullDereference))
    else
      var failed := Events.BuildOtherReasonTransferFailedEvent(header.value.transactionId, exception,
                                                               draws.failureEventId, draws.ledger.now);
      var sent := AddTo(producer, failed);
      Effects(repository, sent.store, Completion(sent.fault))
  }

  /**
   * `ProcessAsync`: parsing sits outside the try, so its exception
   * propagates; an exception of the attempt is handled by the failure path.
   */
  function Process(cancel: bool, container: CommandContainer, draws: TransferDraws,
                   repository: Store<CheckingAccountLine>, producer: Store<Event>): Effects
  {
    match container.parsed
    case Err(e) => Effects(repository, producer, Err(e))
    case Ok(command) =>
      var attempt := Attempt(cancel, command, draws.ledger, repository, producer);
      if attempt.result.Ok? then attempt
      else Failure(command.header, attempt.result.error, draws, attempt.repository, attempt.producer)
  }

  /** The command's transaction passes the ledger's validation. */
  predicate Acceptable(command: Command)
  {
    command.transaction.Some? &&
    Validate(HeaderTransactionId(command.header), command.transaction.value.accountFromId,
             command.transaction.value.accountToId, command.transaction.value.amount).None?
  }

  /**
   * Success path: when nothing throws, the repository receives the
   * operation's two lines in ledger order, then exactly one event, the
   * operation's, is produced.
   */
  lemma {:induction false} AcceptedCommandIsBooked(cancel: bool, command: Command, draws: TransferDraws,
                                                   repository: Store<CheckingAccountLine>, producer: Store<Event>)
    requires Acceptable(command)
    requires NoFaultsIn(repository.faults, repository.calls, 2) && producer.calls !in producer.faults
    ensures var transactionId := HeaderTransactionId(command.header);
      var e := Process(cancel, CommandContainer(Ok(command)), draws, repository, producer);
      && e.result == Ok(Unit)
      && e.repository.items == repository.items + OperationLines(cancel, transactionId, command.transaction.value, draws.ledger)
      && e.producer.items == producer.items + [OperationEvent(cancel, transactionId, draws.ledger)]
  {
    var transactionId := HeaderTransactionId(command.header);
    AddEachAllKept(repository, OperationLines(cancel, transactionId, command.transaction.value, draws.ledger));
  }

  /**
   * A command whose details fail validation (or are missing) books nothing:
   * with a header, the only effect is one OtherReasonTransferFailedEvent that
   * carries the header's transaction id and the exception's message, and the
   * exception is not rethrown.
   */
  lemma RejectedCommandOnlyReportsFailure(cancel: bool, command: Command, draws: TransferDraws,
                                          repository: Store<CheckingAccountLine>, producer: Store<Event>)
    requires !Acceptable(command) && command.header.Some?
    requires producer.calls !in producer.faults
    ensures var e := Process(cancel, CommandContainer(Ok(command)), draws, repository, producer);
      && e.result == Ok(Unit)
      && e.repository == repository
      && |e.producer.items| == |producer.items| + 1
      && e.producer.items[..|producer.items|] == producer.items
      && var failed := e.producer.items[|producer.items|];
         && failed.kind == OtherReasonTransferFailedEvent
         && failed.header.transactionId == command.header.value.transactionId
         && failed.content == ErrorContent(Attempt(cancel, command, draws.ledger, repository, producer).result.error.Message())
  {
    var e := Process(cancel, CommandContainer(Ok(command)), draws, repository, producer);
    assert e.producer.items[..|producer.items|] == producer.items;
  }

  /**
   * A command without header is never booked: its transaction id is null,
   * so validation fails, and the failure path throws on the null header. It
   * ends in a NullReferenceException with nothing persisted or produced.
   */
  lemma HeaderlessCommandThrows(cancel: bool, command: Command, draws: TransferDraws,
                                repository: Store<CheckingAccountLine>, producer: Store<Event>)
    requires command.header.None?
    ensures Process(cancel, CommandContainer(Ok(command)), draws, repository, producer)
         == Effects(repository, producer, Err(NullDereference))
  {
  }

  /** A container that does not parse throws what parsing throws, with no effect. */
  lemma ParseFailurePropagates(cancel: bool, e: Exception, draws: TransferDraws,
                               repository: Store<CheckingAccountLine>, producer: Store<Event>)
    ensures Process(cancel, CommandContainer(Err(e)), draws, repository, producer) == Effects(repository, producer, Err(e))
  {
  }

  /**
   * There is no rollback: when the repository refuses the second line, the
   * first stays booked and the failure event is produced after it.
   */
  lemma {:induction false} NoRollbackAfterPartialBooking(cancel: bool, command: Command, draws: TransferDraws,
                                                         repository: Store<CheckingAccountLine>, producer: Store<Event>)
    requires Acceptable(command) && command.header.Some?
    requires repository.calls !in repository.faults && repository.calls + 1 in repository.faults
    requires producer.calls !in producer.faults
    ensures var transactionId := HeaderTransactionId(command.header);
      var e := Process(cancel, CommandContainer(Ok(command)), draws, repository, producer);
      && e.result == Ok(Unit)
      && e.repository.items == repository.items + [OperationLines(cancel, transactionId, command.transaction.value, draws.ledger)[0]]
      && |e.producer.items| == |producer.items| + 1
      && e.producer.items[|producer.items|].kind == OtherReasonTransferFailedEvent
      && e.producer.items[|producer.items|].content == ErrorContent(repository.faults[repository.calls + 1].Message())
  {
    var transactionId := HeaderTransactionId(command.header);
    var lines := OperationLines(cancel, transactionId, command.transaction.value, draws.ledger);
    var first := AddTo(repository, lines[0]);
    assert lines[1..][1..] == [];
    assert AddEach(first.store, lines[1..]) == AddTo(first.store, lines[1]);
  }

  /** A Transfer command processor: the transfer or the cancellation one, with the sinks it shares. */
  datatype TransferProcessor =
    | TransferCommandProcessor(eventProducer: Collector<Event>, repository: Collector<CheckingAccountLine>)
    | CancelTransferCommandProcessor(eventProducer: Collector<Event>, repository: Collector<CheckingAccountLine>)
  {
    predicate Cancels()
    {
      CancelTransferCommandProcessor?
    }

    /** `ProcessAsync(commandContainer)`. */
    method ProcessAsync(container: CommandContainer, draws: TransferDraws) returns (r: Result<Unit, Exception>)
      modifies eventProducer, repository
      ensures Effects(repository.State(), eventProducer.State(), r)
           == Process(Cancels(), container, draws, old(repository.State()), old(eventProducer.State()))
    {
      if container.parsed.Err? {
        return Err(container.parsed.error);
      }
      var command := container.parsed.value;
      var attempt := OperationAsync(command, draws.ledger);
      if attempt.Ok? {
        return attempt;
      }
      r := ProcessFailure(command.header, attempt.error, draws);
    }

    /** `TransferAsync` / `CancelTransferAsync`. */
    method OperationAsync(command: Command, d: LedgerDraws) returns (r: Result<Unit, Exception>)
      modifies eventProducer, repository
      ensures Effects(repository.State(), eventProducer.State(), r)
           == Attempt(Cancels(), command, d, old(repository.State()), old(eventProducer.State()))
    {
      var transactionId := HeaderTransactionId(command.header);
      if command.transaction.None? {
        return Err(NullDereference);
      }
      var transaction := command.transaction.value;
      var transfer := new CheckingAccountTransfer();
      var outcome;
      if Cancels() {
        outcome := transfer.CancelTranferAmountBetweenAccounts(transactionId, transaction.accountFromId,
                                                               transaction.accountToId, transaction.amount, d);
      } else {
        outcome := transfer.TranferAmountBetweenAccounts(transactionId, transaction.accountFromId,
                                                         transaction.accountToId, transaction.amount, d);
      }
      if outcome.Err? {
        return Err(outcome.error);
      }
      var lines := transfer.CheckingAccountLines();
      assert lines == OperationLines(Cancels(), transactionId, transaction, d);
      var i := 0;
      while i < |lines|
        invariant 0 <= i <= |lines|
        invariant AddEach(repository.State(), lines[i..]) == AddEach(old(repository.State()), lines)
        invariant eventProducer.State() == old(eventProducer.State())
      {
        ghost var before := repository.State();
        assert lines[i..][0] == lines[i] && lines[i..][1..] == lines[i + 1..];
        var fault := repository.Add(lines[i]);
        if fault.Some? {
          return Err(fault.value);
        }
        i := i + 1;
      }
      var fault := eventProducer.Add(outcome.value);
      r := Completion(fault);
    }

    /** `ProcessFailure` / `ProcessCancellationFailureAsync`. */
    method ProcessFailure(header: Option<MessageHeader>, exception: Exception, draws: TransferDraws)
      returns (r: Result<Unit, Exception>)
      modifies eventProducer
      ensures Effects(repository.State(), eventProducer.State(), r)
           == Failure(header, exception, draws, old(repository.State()), old(eventProducer.State()))
    {
      if header.None? {
        return Err(NullDereference);
      }
      var failed := Events.BuildOtherReasonTransferFailedEvent(header.value.transactionId, exception,
                                                               draws.failureEventId, draws.ledger.now);
      var fault := eventProducer.Add(failed);
      r := Completion(fault);
    }
  }
}
