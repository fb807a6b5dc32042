/**
 * `DurableOrchestrator`: the saga's state machine. It persists Pending,
 * then has the Validator validate, the Transfer participant transfer and
 * the Receipt participant issue a receipt, each by producing a command and
 * waiting for the participant's reply; when the receipt is not issued it
 * compensates by cancelling the transfer. Its steps are the closures of two
 * tables, keyed by command class name and by saga state name.
 */
module DurableOrchestration {
  import opened Basics
  import opened Messaging
  import opened Transactions
  import opened DurableContext
  import ConstantStrings
  import Producing
  import ActivityFactory

  /**
   * The producer table. Within one run each key is called at most once
   * (`StepsRunAtMostOnce`), so a closure is modelled by the outcome of its
   * one call: a result, or the exception it throws.
   */
  type Producers = map<string, Result<ActivityFactory.ActivityResult<Producing.ProducerResult>, Exception>>

  /** The persister table, keyed by saga state name, each closure by the outcome of its one call. */
  type Persisters = map<string, Result<bool, Exception>>

  /** The three waits' timeouts, in whole seconds as configured. */
  datatype Timeouts = Timeouts(validatorSeconds: Int32, transferSeconds: Int32, receiptSeconds: Int32)

  /** `TimeoutUtils.FormatAccountsValidationTimeout` and its two siblings. */
  function ValidatorTimeout(t: Timeouts): TimeSpan { FromSeconds(t.validatorSeconds) }
  function TransferTimeout(t: Timeouts): TimeSpan { FromSeconds(t.transferSeconds) }
  function ReceiptTimeout(t: Timeouts): TimeSpan { FromSeconds(t.receiptSeconds) }

  /** What one wait sees: the orchestration's current time then, and whether the reply or the timer came first. */
  datatype Reply = Reply(now: DateTime, race: Race<string>)

  /** The four waits of a run, in the order they can happen. */
  datatype Replies = Replies(validator: Reply, transfer: Reply, receipt: Reply, compensation: Reply)

  /** A step the run took: a persister or producer it called, or a wait it finished. */
  datatype Step = Persisted(state: SagaState) | Produced(kind: CommandKind) | Awaited(source: Sources, waited: Waited<string>)

  /** A run: the state returned, or the exception thrown, and the steps taken in order. */
  datatype Run = Run(outcome: Result<SagaState, Exception>, trace: seq<Step>)

  /** Where a step leaves the run: going on, ending in Fail, or throwing. */
  datatype Gate = Pass(trace: seq<Step>) | Reject(trace: seq<Step>) | Abort(error: Exception, trace: seq<Step>)

  /** `ValidInputs`: both tables present and not empty. */
  predicate ValidInputs(commandProducers: Option<Producers>, sagaStatePersisters: Option<Persisters>)
  {
    commandProducers.Some? && |commandProducers.value| > 0
    && sagaStatePersisters.Some? && |sagaStatePersisters.value| > 0
  }

  /** A constructed orchestrator: its two read-only tables and the three timeouts. */
  datatype DurableOrchestrator = DurableOrchestrator(commandProducers: Producers, sagaStatePersisters: Persisters,
                                                     timeouts: Timeouts)
  {
    /** `OrchestrateAsync(input, context, log)`; the input it is given is not used. */
    method OrchestrateAsync(context: Option<OrchestrationContext>, replies: Replies)
      returns (outcome: Result<SagaState, Exception>, trace: seq<Step>)
      ensures Run(outcome, trace) == Orchestrate(commandProducers, sagaStatePersisters, timeouts, context, replies)
    {
      trace := [];
      var pending := Persist(sagaStatePersisters, Pending, trace);
      trace := pending.trace;
      if pending.Abort? {
        return Err(pending.error), trace;
      }
      if pending.Reject? {
        return Ok(Fail), trace;
      }
      var validation := ProduceStep(commandProducers, ValidateTransferCommand, trace);
      if !validation.Pass? {
        var r := Settle(sagaStatePersisters, validation);
        return r.outcome, r.trace;
      }
      var validated := WaitStep(context, Validator, ValidatorTimeout(timeouts), replies.validator,
                                TransferValidatedEvent.Name(), validation.trace);
      if !validated.Pass? {
        var r := Settle(sagaStatePersisters, validated);
        return r.outcome, r.trace;
      }
      var transfer := ProduceStep(commandProducers, TransferCommand, validated.trace);
      if !transfer.Pass? {
        var r := Settle(sagaStatePersisters, transfer);
        return r.outcome, r.trace;
      }
      var transferred := WaitStep(context, Transfer, TransferTimeout(timeouts), replies.transfer,
                                  TransferSucceededEvent.Name(), transfer.trace);
      if !transferred.Pass? {
        var r := Settle(sagaStatePersisters, transferred);
        return r.outcome, r.trace;
      }
      var receipt := ProduceStep(commandProducers, IssueReceiptCommand, transferred.trace);
      if !receipt.Pass? {
        var r := Settle(sagaStatePersisters, receipt);
        return r.outcome, r.trace;
      }
      var issued := WaitStep(context, Receipt, ReceiptTimeout(timeouts), replies.receipt,
                             ReceiptIssuedEvent.Name(), receipt.trace);
      if issued.Abort? {
        return Err(issued.error), issued.trace;
      }
      if issued.Reject? {
        var cancel := ProduceStep(commandProducers, CancelTransferCommand, issued.trace);
        if !cancel.Pass? {
          var r := Settle(sagaStatePersisters, cancel);
          return r.outcome, r.trace;
        }
        var cancelled := WaitStep(context, Transfer, TransferTimeout(timeouts), replies.compensation,
                                  TransferCanceledEvent.Name(), cancel.trace);
        if cancelled.Abort? {
          return Err(cancelled.error), cancelled.trace;
        }
        var r := Finish(sagaStatePersisters, if cancelled.Pass? then Cancelled else Fail, cancelled.trace);
        return r.outcome, r.trace;
      }
      var r := Finish(sagaStatePersisters, Success, issued.trace);
      return r.outcome, r.trace;
    }
  }

  /**
   * `new DurableOrchestrator(commandProducers, sagaStatePersisters)`: an
   * ArgumentException with the InvalidParameters message unless both tables
   * are present and not empty. Which keys they hold is not checked.
   */
  function NewDurableOrchestrator(commandProducers: Option<Producers>, sagaStatePersisters: Option<Persisters>,
                                  timeouts: Timeouts): Result<DurableOrchestrator, Exception>
  {
    if !ValidInputs(commandProducers, sagaStatePersisters) then Err(ArgumentException(ConstantStrings.InvalidParameters, None))
    else Ok(DurableOrchestrator(commandProducers.value, sagaStatePersisters.value, timeouts))
  }

  /**
   * Construction fails exactly when a table is null or empty, with an
   * ArgumentException whose message is the InvalidParameters text, and
   * otherwise keeps both tables as given.
   */
  lemma ConstructionChecksTables(commandProducers: Option<Producers>, sagaStatePersisters: Option<Persisters>,
                                 timeouts: Timeouts)
    ensures var r := NewDurableOrchestrator(commandProducers, sagaStatePersisters, timeouts);
      && (r.Err? <==> commandProducers.None? || commandProducers.value == map[]
                      || sagaStatePersisters.None? || sagaStatePersisters.value == map[])
      && (r.Err? ==> r.error.IsArgumentException() && r.error.Message() == ConstantStrings.InvalidParameters)
      && (r.Ok? ==> r.value.commandProducers == commandProducers.value
                    && r.value.sagaStatePersisters == sagaStatePersisters.value)
  {
    if commandProducers.Some? && commandProducers.value != map[] {
      var k :| k in commandProducers.value;
    }
    if sagaStatePersisters.Some? && sagaStatePersisters.value != map[] {
      var k :| k in sagaStatePersisters.value;
    }
  }

  /**
   * Calling the persister of `state`: a missing key throws
   * KeyNotFoundException before anything runs; the persister's exception
   * propagates; false ends the run in Fail.
   */
  function Persist(persisters: Persisters, state: SagaState, trace: seq<Step>): (g: Gate)
    ensures state.Name() !in persisters ==> g == Abort(KeyNotFoundException(state.Name()), trace)
    ensures state.Name() in persisters ==> g.trace == trace + [Persisted(state)]
    ensures g.Pass? <==> state.Name() in persisters && persisters[state.Name()] == Ok(true)
    ensures g.Reject? <==> state.Name() in persisters && persisters[state.Name()] == Ok(false)
  {
    if state.Name() !in persisters then Abort(KeyNotFoundException(state.Name()), trace)
    else match persisters[state.Name()]
      case Err(e) => Abort(e, trace + [Persisted(state)])
      case Ok(persisted) => if persisted then Pass(trace + [Persisted(state)]) else Reject(trace + [Persisted(state)])
  }

  /** The producer of `kind` returned a valid result. */
  predicate ProducerValid(producers: Producers, kind: CommandKind)
  {
    kind.Name() in producers && producers[kind.Name()].Ok? && producers[kind.Name()].value.valid
  }

  /**
   * Calling the producer of `kind`: a missing key throws
   * KeyNotFoundException before anything runs; the producer's exception
   * propagates; an invalid result ends the run in Fail.
   */
  function ProduceStep(producers: Producers, kind: CommandKind, trace: seq<Step>): (g: Gate)
    ensures kind.Name() !in producers ==> g == Abort(KeyNotFoundException(kind.Name()), trace)
    ensures kind.Name() in producers ==> g.trace == trace + [Produced(kind)]
    ensures g.Pass? <==> ProducerValid(producers, kind)
    ensures g.Reject? <==> kind.Name() in producers && producers[kind.Name()].Ok? && !producers[kind.Name()].value.valid
  {
    if kind.Name() !in producers then Abort(KeyNotFoundException(kind.Name()), trace)
    else match producers[kind.Name()]
      case Err(e) => Abort(e, trace + [Produced(kind)])
      case Ok(result) => if result.valid then Pass(trace + [Produced(kind)]) else Reject(trace + [Produced(kind)])
  }

  /** The context as it reads at the moment of a wait. */
  function At(context: Option<OrchestrationContext>, now: DateTime): Option<OrchestrationContext>
  {
    if context.Some? then Some(context.value.(currentUtcDateTime := now)) else None
  }

  /** The wait finishes: there is a context and the deadline is a date. */
  predicate WaitCompletes(context: Option<OrchestrationContext>, timeout: TimeSpan, reply: Reply)
  {
    context.Some? && 0 <= reply.now + timeout <= MaxTicks
  }

  /** The wait finishes with the reply `expected`: it came before the timer. */
  predicate Heard(context: Option<OrchestrationContext>, timeout: TimeSpan, reply: Reply, expected: string)
  {
    WaitCompletes(context, timeout, reply) && reply.race == TaskFirst(expected)
  }

  /**
   * Waiting for the reply of `source`: the wait's exception propagates; a
   * reply other than `expected`, or none before the timer, ends the run in
   * Fail (or, for the receipt, starts the compensation).
   */
  function WaitStep(context: Option<OrchestrationContext>, source: Sources, timeout: TimeSpan, reply: Reply,
                    expected: string, trace: seq<Step>): (g: Gate)
    ensures !WaitCompletes(context, timeout, reply) <==> g.Abort?
    ensures g.Abort? ==> g.trace == trace && g.error.IsArgumentException()
    ensures !g.Abort? ==> |g.trace| == |trace| + 1 && g.trace[..|trace|] == trace && g.trace[|trace|].Awaited?
                          && g.trace[|trace|].source == source
    ensures g.Pass? <==> Heard(context, timeout, reply, expected)
  {
    match AwaitExternalEvent(At(context, reply.now), source, timeout, reply.race)
    case Err(e) => Abort(e, trace)
    case Ok(w) => if w.value == Some(expected) then Pass(trace + [Awaited(source, w)]) else Reject(trace + [Awaited(source, w)])
  }

  /** The rank of each command in the saga: the three forward steps, then the compensation. */
  function Rank(kind: CommandKind): nat
  {
    match kind
    case ValidateTransferCommand => 0
    case TransferCommand => 1
    case IssueReceiptCommand => 2
    case CancelTransferCommand => 3
  }

  /**
   * `full` carries on from `trace`: the steps added produce commands of rank
   * `from` or more, in increasing rank, and persist at most once, as the
   * very last step and never Pending.
   */
  predicate Continues(trace: seq<Step>, full: seq<Step>, from: nat)
  {
    && |trace| <= |full| && full[..|trace|] == trace
    && (forall i :: |trace| <= i < |full| && full[i].Persisted? ==> i == |full| - 1 && full[i].state != Pending)
    && (forall i :: |trace| <= i < |full| && full[i].Produced? ==> Rank(full[i].kind) >= from)
    && (forall i, j :: |trace| <= i < j < |full| && full[i].Produced? && full[j].Produced? ==>
          Rank(full[i].kind) < Rank(full[j].kind))
  }

  /** A command of rank `from` and a wait, followed by steps of higher rank, carry on from the trace at rank `from`. */
  lemma StageContinues(trace: seq<Step>, mid: seq<Step>, kind: CommandKind, full: seq<Step>)
    requires |mid| == |trace| + 2 && mid[..|trace| + 1] == trace + [Produced(kind)] && mid[|trace| + 1].Awaited?
    requires Continues(mid, full, Rank(kind) + 1)
    ensures Continues(trace, full, Rank(kind))
  {
    assert full[..|trace|] == mid[..|trace| + 1][..|trace|] == trace;
    forall i | |trace| <= i < |full| && full[i].Produced?
      ensures Rank(full[i].kind) >= Rank(kind) && (i < |mid| ==> i == |trace| && full[i].kind == kind)
    {
      if i < |mid| {
        assert full[i] == mid[i];
        if i == |trace| {
          assert mid[i] == mid[..|trace| + 1][i];
        }
      }
    }
  }

  /**
   * The steps a stage adds before it ends: none, its command, or its
   * command and a wait.
   */
  predicate StageTrace(trace: seq<Step>, mid: seq<Step>, kind: CommandKind)
  {
    || mid == trace
    || mid == trace + [Produced(kind)]
    || (|mid| == |trace| + 2 && mid[..|trace| + 1] == trace + [Produced(kind)] && mid[|trace| + 1].Awaited?)
  }

  /** A stage that ends with at most a terminal persister carries on from the trace at its rank. */
  lemma EndContinues(trace: seq<Step>, mid: seq<Step>, kind: CommandKind, state: SagaState, full: seq<Step>)
    requires StageTrace(trace, mid, kind) && state != Pending
    requires full == mid || full == mid + [Persisted(state)]
    ensures Continues(trace, full, Rank(kind))
  {
    assert full[..|trace|] == trace by {
      assert mid[..|trace|] == trace;
      assert full[..|mid|] == mid;
    }
    forall i | |trace| <= i < |full| && full[i].Produced?
      ensures i == |trace| && full[i].kind == kind
    {
      if i < |mid| {
        assert full[i] == mid[i];
        if |mid| == |trace| + 2 {
          assert mid[i] == mid[..|trace| + 1][i] || i == |trace| + 1;
        }
      }
    }
  }

  /** A step that did not pass ends the run: in Fail, through the Fail persister, or with its exception. */
  function Settle(persisters: Persisters, g: Gate): (r: Run)
    requires !g.Pass?
    ensures g.Abort? ==> r == Run(Err(g.error), g.trace)
    ensures g.Reject? ==> r == Finish(persisters, Fail, g.trace)
  {
    if g.Abort? then Run(Err(g.error), g.trace) else Finish(persisters, Fail, g.trace)
  }

  /** The terminal persister of `state`, whose boolean is ignored: the run returns `state` unless it throws. */
  function Finish(persisters: Persisters, state: SagaState, trace: seq<Step>): (r: Run)
    ensures state.Name() !in persisters ==> r == Run(Err(KeyNotFoundException(state.Name())), trace)
    ensures state.Name() in persisters ==> r.trace == trace + [Persisted(state)]
    ensures r.outcome.Ok? <==> state.Name() in persisters && persisters[state.Name()].Ok?
    ensures r.outcome.Ok? ==> r.outcome.value == state
  {
    var g := Persist(persisters, state, trace);
    if g.Abort? then Run(Err(g.error), g.trace) else Run(Ok(state), g.trace)
  }

  /**
   * After the receipt was not issued: cancel the transfer and wait for the
   * Transfer participant's answer, Cancelled when it is TransferCanceledEvent
   * and Fail otherwise.
   */
  function Compensate(producers: Producers, persisters: Persisters, timeouts: Timeouts,
                      context: Option<OrchestrationContext>, replies: Replies, trace: seq<Step>): (r: Run)
    ensures Continues(trace, r.trace, Rank(CancelTransferCommand))
  {
    var cancel := ProduceStep(producers, CancelTransferCommand, trace);
    if !cancel.Pass? then
      var r := Settle(persisters, cancel);
      EndContinues(trace, cancel.trace, CancelTransferCommand, Fail, r.trace);
      r
    else
      var cancelled := WaitStep(context, Transfer, TransferTimeout(timeouts), replies.compensation,
                                TransferCanceledEvent.Name(), cancel.trace);
      var state := if cancelled.Pass? then Cancelled else Fail;
      var r := if cancelled.Abort? then Run(Err(cancelled.error), cancelled.trace)
               else Finish(persisters, state, cancelled.trace);
      EndContinues(trace, cancelled.trace, CancelTransferCommand, state, r.trace);
      r
  }

  /** The receipt step: IssueReceiptCommand and the Receipt participant's answer; anything but ReceiptIssuedEvent compensates. */
  function ReceiptStage(producers: Producers, persisters: Persisters, timeouts: Timeouts,
                        context: Option<OrchestrationContext>, replies: Replies, trace: seq<Step>): (r: Run)
    ensures Continues(trace, r.trace, Rank(IssueReceiptCommand))
  {
    var receipt := ProduceStep(producers, IssueReceiptCommand, trace);
    if !receipt.Pass? then
      var r := Settle(persisters, receipt);
      EndContinues(trace, receipt.trace, IssueReceiptCommand, Fail, r.trace);
      r
    else
    var issued := WaitStep(context, Receipt, ReceiptTimeout(timeouts), replies.receipt,
                           ReceiptIssuedEvent.Name(), receipt.trace);
    if issued.Abort? then
      var r := Run(Err(issued.error), issued.trace);
      EndContinues(trace, receipt.trace, IssueReceiptCommand, Fail, r.trace);
      r
    else if issued.Reject? then
      var r := Compensate(producers, persisters, timeouts, context, replies, issued.trace);
      StageContinues(trace, issued.trace, IssueReceiptCommand, r.trace);
      r
    else
      var r := Finish(persisters, Success, issued.trace);
      EndContinues(trace, issued.trace, IssueReceiptCommand, Success, r.trace);
      r
  }

  /** The transfer step: TransferCommand and the Transfer participant's answer, which must be TransferSucceededEvent. */
  function TransferStage(producers: Producers, persisters: Persisters, timeouts: Timeouts,
                         context: Option<OrchestrationContext>, replies: Replies, trace: seq<Step>): (r: Run)
    ensures Continues(trace, r.trace, Rank(TransferCommand))
  {
    var transfer := ProduceStep(producers, TransferCommand, trace);
    if !transfer.Pass? then
      var r := Settle(persisters, transfer);
      EndContinues(trace, transfer.trace, TransferCommand, Fail, r.trace);
      r
    else
    var transferred := WaitStep(context, Transfer, TransferTimeout(timeouts), replies.transfer,
                                TransferSucceededEvent.Name(), transfer.trace);
    if !transferred.Pass? then
      var r := Settle(persisters, transferred);
      EndContinues(trace, transferred.trace, TransferCommand, Fail, r.trace);
      r
    else
    var r := ReceiptStage(producers, persisters, timeouts, context, replies, transferred.trace);
    StageContinues(trace, transferred.trace, TransferCommand, r.trace);
    r
  }

  /** The run after Pending was persisted, from the validation step on. */
  function Forward(producers: Producers, persisters: Persisters, timeouts: Timeouts,
                   context: Option<OrchestrationContext>, replies: Replies, trace: seq<Step>): (r: Run)
    ensures Continues(trace, r.trace, Rank(ValidateTransferCommand))
  {
    var validation := ProduceStep(producers, ValidateTransferCommand, trace);
    if !validation.Pass? then
      var r := Settle(persisters, validation);
      EndContinues(trace, validation.trace, ValidateTransferCommand, Fail, r.trace);
      r
    else
    var validated := WaitStep(context, Validator, ValidatorTimeout(timeouts), replies.validator,
                              TransferValidatedEvent.Name(), validation.trace);
    if !validated.Pass? then
      var r := Settle(persisters, validated);
      EndContinues(trace, validated.trace, ValidateTransferCommand, Fail, r.trace);
      r
    else
    var r := TransferStage(producers, persisters, timeouts, context, replies, validated.trace);
    StageContinues(trace, validated.trace, ValidateTransferCommand, r.trace);
    r
  }

  /** A whole run of `OrchestrateAsync`, as a value. */
  function Orchestrate(producers: Producers, persisters: Persisters, timeouts: Timeouts,
                       context: Option<OrchestrationContext>, replies: Replies): Run
  {
    var pending := Persist(persisters, Pending, []);
    if pending.Abort? then Run(Err(pending.error), pending.trace)
    else if pending.Reject? then Run(Ok(Fail), pending.trace)
    else Forward(producers, persisters, timeouts, context, replies, pending.trace)
  }
}

