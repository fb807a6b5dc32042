/**
 * `Orchestrator.SagaOrchestrator`, the orchestration function: it reads the
 * transaction from the orchestration's input, fills the producer table with
 * the four `ActivityFactory.Produce<Kind>CommandAsync` closures and the
 * persister table with `SagaFactory.PersistSagaStateAsync` for the four
 * states, runs a `DurableOrchestrator` on them and logs any
 * ArgumentException instead of letting it out.
 */
module OrchestratorFunction {
  import opened Basics
  import opened Messaging
  import opened Transactions
  import opened DurableContext
  import opened ActivityFactory
  import opened DurableOrchestration
  import opened DurableOrchestrationProperties
  import Producing
  import SagaFactory

  /** What a producer closure's one call draws: the header's GUID and clock reading, and how its activity ends. */
  datatype CommandDraw = CommandDraw(messageId: string, now: DateTime, outcome: ActivityOutcome<Producing.ProducerResult>)

  /**
   * What a persister closure's one call draws: the GUID of the default item
   * a timeout builds, the orchestration's current time at the call, and who
   * wins the race.
   */
  datatype StateDraw = StateDraw(createdId: string, clock: DateTime, outcome: Race<ActivityOutcome<TransactionItem>>)

  /** The configured timeouts: the three waits' and the persisting activity's, in seconds. */
  datatype Settings = Settings(timeouts: Timeouts, persistSeconds: Int32)

  /** A finished invocation: whether the function threw, the error it logged, and the run's steps. */
  datatype Invocation = Invocation(result: Result<Unit, Exception>, loggedError: Option<string>, trace: seq<Step>)

  /** The producer closure of `kind`: the item is dereferenced first, so a null input throws. */
  function ProducerCall(item: Option<TransactionItem>, context: OrchestrationContext, kind: CommandKind,
                        d: CommandDraw): Result<ActivityResult<Producing.ProducerResult>, Exception>
  {
    if item.None? then Err(NullDereference)
    else ProduceCommand(kind, item.value, Some(context), d.messageId, d.now, d.outcome).result
  }

  /** The persister closure of `state`: the item is dereferenced first, so a null input throws. */
  function PersisterCall(item: Option<TransactionItem>, context: OrchestrationContext, state: SagaState,
                         persistSeconds: Int32, d: StateDraw): Result<bool, Exception>
  {
    if item.None? then Err(NullDereference)
    else SagaFactory.PersistSagaState(item.value, state, Some(context.(currentUtcDateTime := d.clock)),
                                      persistSeconds, d.createdId, d.outcome)
  }

  /** The `commandProducers` dictionary, keyed by command class name. */
  function CommandProducers(item: Option<TransactionItem>, context: OrchestrationContext,
                            draws: CommandKind -> CommandDraw): Producers
  {
    map[ValidateTransferCommand.Name() := ProducerCall(item, context, ValidateTransferCommand, draws(ValidateTransferCommand)),
        TransferCommand.Name() := ProducerCall(item, context, TransferCommand, draws(TransferCommand)),
        CancelTransferCommand.Name() := ProducerCall(item, context, CancelTransferCommand, draws(CancelTransferCommand)),
        IssueReceiptCommand.Name() := ProducerCall(item, context, IssueReceiptCommand, draws(IssueReceiptCommand))]
  }

  /** The `sagaStatePersisters` dictionary, keyed by saga state name. */
  function SagaStatePersisters(item: Option<TransactionItem>, context: OrchestrationContext, persistSeconds: Int32,
                               draws: SagaState -> StateDraw): Persisters
  {
    map[Pending.Name() := PersisterCall(item, context, Pending, persistSeconds, draws(Pending)),
        Success.Name() := PersisterCall(item, context, Success, persistSeconds, draws(Success)),
        Cancelled.Name() := PersisterCall(item, context, Cancelled, persistSeconds, draws(Cancelled)),
        Fail.Name() := PersisterCall(item, context, Fail, persistSeconds, draws(Fail))]
  }

  /** The producer table holds exactly the four command class names, each key with its class's call. */
  lemma ProducerTableComplete(item: Option<TransactionItem>, context: OrchestrationContext,
                              commandDraws: CommandKind -> CommandDraw)
    ensures var p := CommandProducers(item, context, commandDraws);
      && p.Keys == (set k: CommandKind :: k.Name())
      && (forall k: CommandKind :: k.Name() in p && p[k.Name()] == ProducerCall(item, context, k, commandDraws(k)))
  {
    var p := CommandProducers(item, context, commandDraws);
    forall k: CommandKind
      ensures k.Name() in p && p[k.Name()] == ProducerCall(item, context, k, commandDraws(k))
    {
      match k
      case ValidateTransferCommand =>
      case TransferCommand =>
      case CancelTransferCommand =>
      case IssueReceiptCommand =>
    }
    assert p.Keys == {ValidateTransferCommand.Name(), TransferCommand.Name(), CancelTransferCommand.Name(), IssueReceiptCommand.Name()};
  }

  /** The persister table holds exactly the four state names, each key with its state's call. */
  lemma PersisterTableComplete(item: Option<TransactionItem>, context: OrchestrationContext, persistSeconds: Int32,
                               stateDraws: SagaState -> StateDraw)
    ensures var s := SagaStatePersisters(item, context, persistSeconds, stateDraws);
      && s.Keys == (set st: SagaState :: st.Name())
      && (forall st: SagaState :: st.Name() in s && s[st.Name()] == PersisterCall(item, context, st, persistSeconds, stateDraws(st)))
  {
    var s := SagaStatePersisters(item, context, persistSeconds, stateDraws);
    forall st: SagaState
      ensures st.Name() in s && s[st.Name()] == PersisterCall(item, context, st, persistSeconds, stateDraws(st))
    {
      match st
      case Pending =>
      case Success =>
      case Cancelled =>
      case Fail =>
    }
    assert s.Keys == {Pending.Name(), Success.Name(), Cancelled.Name(), Fail.Name()};
  }

  /**
   * `SagaOrchestrator(context, log)`. The tables are never empty, so the
   * orchestrator is always built; an ArgumentException out of the run is
   * caught and its message logged, and any other exception escapes.
   */
  function SagaOrchestrator(context: OrchestrationContext, input: Option<TransactionItem>, settings: Settings,
                            commandDraws: CommandKind -> CommandDraw, stateDraws: SagaState -> StateDraw,
                            replies: Replies): Invocation
  {
    var producers := CommandProducers(input, context, commandDraws);
    var persisters := SagaStatePersisters(input, context, settings.persistSeconds, stateDraws);
    match NewDurableOrchestrator(Some(producers), Some(persisters), settings.timeouts)
    case Err(e) =>
      if e.IsArgumentException() then Invocation(Ok(Unit), Some(e.Message()), []) else Invocation(Err(e), None, [])
    case Ok(orchestrator) =>
      var run := Orchestrate(producers, persisters, settings.timeouts, Some(context), replies);
      if run.outcome.Ok? then Invocation(Ok(Unit), None, run.trace)
      else if run.outcome.error.IsArgumentException() then Invocation(Ok(Unit), Some(run.outcome.error.Message()), run.trace)
      else Invocation(Err(run.outcome.error), None, run.trace)
  }

  /**
   * The invocation runs the saga on the two tables: it completes exactly
   * when the run returns a state or throws an ArgumentException, logs that
   * exception's message in the second case, and otherwise throws what the
   * run threw.
   */
  lemma InvocationCatchesArgumentExceptions(context: OrchestrationContext, input: Option<TransactionItem>,
                                            settings: Settings, commandDraws: CommandKind -> CommandDraw,
                                            stateDraws: SagaState -> StateDraw, replies: Replies)
    ensures var run := Orchestrate(CommandProducers(input, context, commandDraws),
                                   SagaStatePersisters(input, context, settings.persistSeconds, stateDraws),
                                   settings.timeouts, Some(context), replies);
      var r := SagaOrchestrator(context, input, settings, commandDraws, stateDraws, replies);
      && r.trace == run.trace
      && (r.result.Ok? <==> run.outcome.Ok? || run.outcome.error.IsArgumentException())
      && (r.loggedError.Some? <==> run.outcome.Err? && run.outcome.error.IsArgumentException())
      && (r.loggedError.Some? ==> r.loggedError.value == run.outcome.error.Message())
      && (r.result.Err? ==> r.result.error == run.outcome.error)
  {
    var producers := CommandProducers(input, context, commandDraws);
    var persisters := SagaStatePersisters(input, context, settings.persistSeconds, stateDraws);
    assert ValidateTransferCommand.Name() in producers;
    assert Pending.Name() in persisters;
    ConstructionChecksTables(Some(producers), Some(persisters), settings.timeouts);
  }

  /**
   * A null input makes the first closure called, the Pending persister,
   * throw a NullReferenceException, which escapes the function after
   * Pending's step, with nothing logged.
   */
  lemma NullInputThrows(context: OrchestrationContext, settings: Settings, commandDraws: CommandKind -> CommandDraw,
                        stateDraws: SagaState -> StateDraw, replies: Replies)
    ensures SagaOrchestrator(context, None, settings, commandDraws, stateDraws, replies)
         == Invocation(Err(NullDereference), None, [Persisted(Pending)])
  {
    InvocationCatchesArgumentExceptions(context, None, settings, commandDraws, stateDraws, replies);
  }

  /** Every producer activity returns or fails with FunctionFailedException, the one the factory catches. */
  predicate ActivitiesReport(commandDraws: CommandKind -> CommandDraw)
  {
    forall k: CommandKind :: commandDraws(k).outcome.Returns? || commandDraws(k).outcome.exception.FunctionFailedException?
  }

  /** Every persisting activity's deadline is a date. */
  predicate DeadlinesRepresentable(settings: Settings, stateDraws: SagaState -> StateDraw)
  {
    forall st: SagaState :: 0 <= stateDraws(st).clock + settings.persistSeconds * TicksPerSecond <= MaxTicks
  }

  /** Producer activities that report their failures make every producer closure return. */
  lemma ProducersReturn(context: OrchestrationContext, item: TransactionItem, commandDraws: CommandKind -> CommandDraw)
    requires ActivitiesReport(commandDraws)
    ensures var p := CommandProducers(Some(item), context, commandDraws);
      (forall k: CommandKind :: k.Name() in p) && (forall name :: name in p ==> p[name].Ok?)
  {
    var p := CommandProducers(Some(item), context, commandDraws);
    ProducerTableComplete(Some(item), context, commandDraws);
    forall name | name in p
      ensures p[name].Ok?
    {
      var k: CommandKind :| k.Name() == name;
      ProducerActivityOutcomes(context, commandDraws(k).outcome);
    }
  }

  /** Persisting deadlines that are dates make every persister closure return. */
  lemma PersistersReturn(context: OrchestrationContext, item: TransactionItem, settings: Settings,
                         stateDraws: SagaState -> StateDraw)
    requires DeadlinesRepresentable(settings, stateDraws)
    ensures var s := SagaStatePersisters(Some(item), context, settings.persistSeconds, stateDraws);
      (forall st: SagaState :: st.Name() in s) && (forall name :: name in s ==> s[name].Ok?)
  {
    var s := SagaStatePersisters(Some(item), context, settings.persistSeconds, stateDraws);
    PersisterTableComplete(Some(item), context, settings.persistSeconds, stateDraws);
    forall name | name in s
      ensures s[name].Ok?
    {
      var st: SagaState :| st.Name() == name;
      var d := stateDraws(st);
      SagaFactory.PersistedIffActivityWins(item, st, Some(context.(currentUtcDateTime := d.clock)),
                                           settings.persistSeconds, d.createdId, d.outcome);
    }
  }

  /**
   * With an input, producer activities that report their failures and
   * persisting deadlines that are dates, the function never throws: every
   * exception the run can raise is a wait's ArgumentException, which is
   * logged.
   */
  lemma WellBehavedActivitiesNeverThrow(context: OrchestrationContext, item: TransactionItem, settings: Settings,
                                        commandDraws: CommandKind -> CommandDraw, stateDraws: SagaState -> StateDraw,
                                        replies: Replies)
    requires ActivitiesReport(commandDraws) && DeadlinesRepresentable(settings, stateDraws)
    ensures SagaOrchestrator(context, Some(item), settings, commandDraws, stateDraws, replies).result == Ok(Unit)
  {
    ProducersReturn(context, item, commandDraws);
    PersistersReturn(context, item, settings, stateDraws);
    QuietTablesNeverThrow(context, Some(item), settings, commandDraws, stateDraws, replies);
  }

  /** Full tables whose closures all return leave only the waits' ArgumentExceptions, which are logged. */
  lemma QuietTablesNeverThrow(context: OrchestrationContext, input: Option<TransactionItem>, settings: Settings,
                              commandDraws: CommandKind -> CommandDraw, stateDraws: SagaState -> StateDraw,
                              replies: Replies)
    requires var p := CommandProducers(input, context, commandDraws);
      var s := SagaStatePersisters(input, context, settings.persistSeconds, stateDraws);
      Full(p, s) && Quiet(p, s)
    ensures SagaOrchestrator(context, input, settings, commandDraws, stateDraws, replies).result == Ok(Unit)
  {
    FullTablesOnlyWaitsThrow(CommandProducers(input, context, commandDraws),
                             SagaStatePersisters(input, context, settings.persistSeconds, stateDraws),
                             settings.timeouts, Some(context), replies);
    InvocationCatchesArgumentExceptions(context, input, settings, commandDraws, stateDraws, replies);
  }
}
