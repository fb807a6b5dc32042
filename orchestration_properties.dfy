/**
 * What a run of the saga state machine guarantees: Pending is persisted
 * first, commands go out in the saga's order and only after the reply that
 * allows them, an invalid producer result ends the run in Fail, the run
 * ends in Success or Cancelled exactly on the routes that lead there, one
 * terminal persister is called and its boolean is ignored, and a missing
 * table key throws KeyNotFoundException out of the run.
 */
module DurableOrchestrationProperties {
  import opened Basics
  import opened Messaging
  import opened Transactions
  import opened DurableContext
  import opened DurableOrchestration

  /** The persister of `state` is present and does not throw. */
  predicate Returns(persisters: Persisters, state: SagaState)
  {
    state.Name() in persisters && persisters[state.Name()].Ok?
  }

  /** The producer of `kind` is present and returns an invalid result. */
  predicate Rejects(producers: Producers, kind: CommandKind)
  {
    kind.Name() in producers && producers[kind.Name()].Ok? && !producers[kind.Name()].value.valid
  }

  /** Both tables hold every key the run can look up. */
  predicate Full(producers: Producers, persisters: Persisters)
  {
    (forall k: CommandKind :: k.Name() in producers) && (forall s: SagaState :: s.Name() in persisters)
  }

  /** No closure in either table throws. */
  predicate Quiet(producers: Producers, persisters: Persisters)
  {
    (forall k :: k in producers ==> producers[k].Ok?) && (forall k :: k in persisters ==> persisters[k].Ok?)
  }

  /** With full tables whose closures do not throw, only a wait can make the run throw, and then an ArgumentException. */
  predicate OnlyWaitsThrow(producers: Producers, persisters: Persisters, r: Run)
  {
    Full(producers, persisters) && Quiet(producers, persisters) ==> r.outcome.Ok? || r.outcome.error.IsArgumentException()
  }

  /** A run that returns a state has persisted that state last. */
  predicate EndsPersisting(r: Run)
  {
    r.outcome.Ok? ==> |r.trace| > 0 && r.trace[|r.trace| - 1] == Persisted(r.outcome.value)
  }

  /** The answer a wait must bring for the saga to go on, and the routes to Success and to Cancelled. */
  predicate Validated(producers: Producers, timeouts: Timeouts, context: Option<OrchestrationContext>, replies: Replies)
  {
    ProducerValid(producers, ValidateTransferCommand)
    && Heard(context, ValidatorTimeout(timeouts), replies.validator, TransferValidatedEvent.Name())
  }

  predicate Transferred(producers: Producers, timeouts: Timeouts, context: Option<OrchestrationContext>, replies: Replies)
  {
    ProducerValid(producers, TransferCommand)
    && Heard(context, TransferTimeout(timeouts), replies.transfer, TransferSucceededEvent.Name())
  }

  predicate Issued(producers: Producers, timeouts: Timeouts, context: Option<OrchestrationContext>, replies: Replies)
  {
    ProducerValid(producers, IssueReceiptCommand)
    && Heard(context, ReceiptTimeout(timeouts), replies.receipt, ReceiptIssuedEvent.Name())
  }

  /** The receipt command went out, and its wait ended without ReceiptIssuedEvent: by another reply or by the timer. */
  predicate NotIssued(producers: Producers, timeouts: Timeouts, context: Option<OrchestrationContext>, replies: Replies)
  {
    ProducerValid(producers, IssueReceiptCommand)
    && WaitCompletes(context, ReceiptTimeout(timeouts), replies.receipt)
    && !Heard(context, ReceiptTimeout(timeouts), replies.receipt, ReceiptIssuedEvent.Name())
  }

  predicate Compensated(producers: Producers, timeouts: Timeouts, context: Option<OrchestrationContext>, replies: Replies)
  {
    ProducerValid(producers, CancelTransferCommand)
    && Heard(context, TransferTimeout(timeouts), replies.compensation, TransferCanceledEvent.Name())
  }

  lemma CompensateOutcome(producers: Producers, persisters: Persisters, timeouts: Timeouts,
                          context: Option<OrchestrationContext>, replies: Replies, trace: seq<Step>)
    ensures var r := Compensate(producers, persisters, timeouts, context, replies, trace);
      && (CancelTransferCommand.Name() !in producers ==> r == Run(Err(KeyNotFoundException(CancelTransferCommand.Name())), trace))
      && (CancelTransferCommand.Name() in producers ==> |r.trace| > |trace| && r.trace[|trace|] == Produced(CancelTransferCommand))
      && (Rejects(producers, CancelTransferCommand) ==> r == Finish(persisters, Fail, trace + [Produced(CancelTransferCommand)]))
      && (r.outcome == Ok(Cancelled) <==> Compensated(producers, timeouts, context, replies) && Returns(persisters, Cancelled))
      && (r.outcome.Ok? ==> r.outcome.value == Cancelled || r.outcome.value == Fail)
      && EndsPersisting(r)
      && OnlyWaitsThrow(producers, persisters, r)
  {
  }

  lemma ReceiptStageOutcome(producers: Producers, persisters: Persisters, timeouts: Timeouts,
                            context: Option<OrchestrationContext>, replies: Replies, trace: seq<Step>)
    ensures var r := ReceiptStage(producers, persisters, timeouts, context, replies, trace);
      && (IssueReceiptCommand.Name() !in producers ==> r == Run(Err(KeyNotFoundException(IssueReceiptCommand.Name())), trace))
      && (IssueReceiptCommand.Name() in producers ==> |r.trace| > |trace| && r.trace[|trace|] == Produced(IssueReceiptCommand))
      && (Rejects(producers, IssueReceiptCommand) ==> r == Finish(persisters, Fail, trace + [Produced(IssueReceiptCommand)]))
      && (r.outcome.Ok? ==> r.outcome.value != Pending)
      && EndsPersisting(r)
      && OnlyWaitsThrow(producers, persisters, r)
    ensures ReceiptStageRoutes(producers, persisters, timeouts, context, replies, trace)
  {
    ReceiptStageStart(producers, persisters, timeouts, context, replies, trace);
    ReceiptStageEnds(producers, persisters, timeouts, context, replies, trace);
    ReceiptStageRouting(producers, persisters, timeouts, context, replies, trace);
  }

  /** The receipt stage's first step: its command, looked up first. */
  lemma ReceiptStageStart(producers: Producers, persisters: Persisters, timeouts: Timeouts,
                          context: Option<OrchestrationContext>, replies: Replies, trace: seq<Step>)
    ensures var r := ReceiptStage(producers, persisters, timeouts, context, replies, trace);
      && (IssueReceiptCommand.Name() !in producers ==> r == Run(Err(KeyNotFoundException(IssueReceiptCommand.Name())), trace))
      && (IssueReceiptCommand.Name() in producers ==> |r.trace| > |trace| && r.trace[|trace|] == Produced(IssueReceiptCommand))
      && (Rejects(producers, IssueReceiptCommand) ==> r == Finish(persisters, Fail, trace + [Produced(IssueReceiptCommand)]))
  {
  }

  /** The receipt stage returns a terminal state it persisted last, and with quiet full tables only a wait throws. */
  lemma ReceiptStageEnds(producers: Producers, persisters: Persisters, timeouts: Timeouts,
                         context: Option<OrchestrationContext>, replies: Replies, trace: seq<Step>)
    ensures var r := ReceiptStage(producers, persisters, timeouts, context, replies, trace);
      && (r.outcome.Ok? ==> r.outcome.value != Pending)
      && EndsPersisting(r)
      && OnlyWaitsThrow(producers, persisters, r)
  {
    var receipt := ProduceStep(producers, IssueReceiptCommand, trace);
    if receipt.Pass? {
      var issued := WaitStep(context, Receipt, ReceiptTimeout(timeouts), replies.receipt,
                             ReceiptIssuedEvent.Name(), receipt.trace);
      if issued.Reject? {
        CompensateOutcome(producers, persisters, timeouts, context, replies, issued.trace);
      }
    }
  }

  /** The receipt stage ends in Success or in Cancelled exactly on the routes that lead there. */
  predicate ReceiptStageRoutes(producers: Producers, persisters: Persisters, timeouts: Timeouts,
                               context: Option<OrchestrationContext>, replies: Replies, trace: seq<Step>)
  {
    var r := ReceiptStage(producers, persisters, timeouts, context, replies, trace);
    && (r.outcome == Ok(Success) <==> Issued(producers, timeouts, context, replies) && Returns(persisters, Success))
    && (r.outcome == Ok(Cancelled) <==>
          NotIssued(producers, timeouts, context, replies) && Compensated(producers, timeouts, context, replies)
          && Returns(persisters, Cancelled))
    && (Produced(CancelTransferCommand) in r.trace[|trace|..] ==> NotIssued(producers, timeouts, context, replies))
  }

  lemma ReceiptStageRouting(producers: Producers, persisters: Persisters, timeouts: Timeouts,
                            context: Option<OrchestrationContext>, replies: Replies, trace: seq<Step>)
    ensures ReceiptStageRoutes(producers, persisters, timeouts, context, replies, trace)
  {
    var receipt := ProduceStep(producers, IssueReceiptCommand, trace);
    if receipt.Pass? {
      var issued := WaitStep(context, Receipt, ReceiptTimeout(timeouts), replies.receipt,
                             ReceiptIssuedEvent.Name(), receipt.trace);
      if issued.Reject? {
        CompensateOutcome(producers, persisters, timeouts, context, replies, issued.trace);
      }
    }
  }

  lemma TransferStageOutcome(producers: Producers, persisters: Persisters, timeouts: Timeouts,
                             context: Option<OrchestrationContext>, replies: Replies, trace: seq<Step>)
    ensures var r := TransferStage(producers, persisters, timeouts, context, replies, trace);
      && (r.outcome == Ok(Success) <==>
            Transferred(producers, timeouts, context, replies) && Issued(producers, timeouts, context, replies)
            && Returns(persisters, Success))
      && (r.outcome == Ok(Cancelled) <==>
            Transferred(producers, timeouts, context, replies) && NotIssued(producers, timeouts, context, replies)
            && Compensated(producers, timeouts, context, replies) && Returns(persisters, Cancelled))
      && (r.outcome.Ok? ==> r.outcome.value != Pending)
      && EndsPersisting(r)
      && OnlyWaitsThrow(producers, persisters, r)
  {
    var transfer := ProduceStep(producers, TransferCommand, trace);
    if transfer.Pass? {
      var transferred := WaitStep(context, Transfer, TransferTimeout(timeouts), replies.transfer,
                                  TransferSucceededEvent.Name(), transfer.trace);
      if transferred.Pass? {
        ReceiptStageOutcome(producers, persisters, timeouts, context, replies, transferred.trace);
      }
    }
  }

  lemma TransferStageShape(producers: Producers, persisters: Persisters, timeouts: Timeouts,
                           context: Option<OrchestrationContext>, replies: Replies, trace: seq<Step>)
    ensures var r := TransferStage(producers, persisters, timeouts, context, replies, trace);
      && (TransferCommand.Name() !in producers ==> r == Run(Err(KeyNotFoundException(TransferCommand.Name())), trace))
      && (TransferCommand.Name() in producers ==> |r.trace| > |trace| && r.trace[|trace|] == Produced(TransferCommand))
      && (Rejects(producers, TransferCommand) ==> r == Finish(persisters, Fail, trace + [Produced(TransferCommand)]))
  {
    var transfer := ProduceStep(producers, TransferCommand, trace);
    if transfer.Pass? {
      var transferred := WaitStep(context, Transfer, TransferTimeout(timeouts), replies.transfer,
                                  TransferSucceededEvent.Name(), transfer.trace);
      if transferred.Pass? {
        var r := ReceiptStage(producers, persisters, timeouts, context, replies, transferred.trace);
        assert transferred.trace[|trace|] == transfer.trace[|trace|] == Produced(TransferCommand);
        assert r.trace[|trace|] == r.trace[..|transferred.trace|][|trace|];
      }
    }
  }

  /** The receipt and the cancellation are produced, in this step or later, only after the transfer succeeded. */
  lemma TransferStageGates(producers: Producers, persisters: Persisters, timeouts: Timeouts,
                           context: Option<OrchestrationContext>, replies: Replies, trace: seq<Step>)
    ensures var r := TransferStage(producers, persisters, timeouts, context, replies, trace);
      && (Produced(IssueReceiptCommand) in r.trace[|trace|..] ==> Transferred(producers, timeouts, context, replies))
      && (Produced(CancelTransferCommand) in r.trace[|trace|..] ==>
            Transferred(producers, timeouts, context, replies) && NotIssued(producers, timeouts, context, replies))
  {
    var r := TransferStage(producers, persisters, timeouts, context, replies, trace);
    var transfer := ProduceStep(producers, TransferCommand, trace);
    if !transfer.Pass? {
      NoLaterCommands(persisters, transfer, trace, r);
    } else {
      var transferred := WaitStep(context, Transfer, TransferTimeout(timeouts), replies.transfer,
                                  TransferSucceededEvent.Name(), transfer.trace);
      if !transferred.Pass? {
        NoLaterCommands(persisters, transferred, trace, r);
      } else {
        ReceiptStageRouting(producers, persisters, timeouts, context, replies, transferred.trace);
        InNewSteps(trace, transferred.trace, r.trace, Produced(CancelTransferCommand));
      }
    }
  }

  /** A step added after `trace` and not among the steps up to `mid` was added after `mid`. */
  lemma InNewSteps(trace: seq<Step>, mid: seq<Step>, full: seq<Step>, step: Step)
    requires |trace| <= |mid| <= |full| && full[..|mid|] == mid && mid[..|trace|] == trace
    requires step !in mid[|trace|..]
    ensures step in full[|trace|..] ==> step in full[|mid|..]
  {
    if step in full[|trace|..] {
      var i :| |trace| <= i < |full| && full[i] == step;
      assert full[|mid|..][i - |mid|] == step;
    }
  }

  /**
   * A run settled after a step that added at most a command of rank below
   * the receipt's and a wait holds no receipt or cancellation command
   * after `trace`.
   */
  lemma NoLaterCommands(persisters: Persisters, g: Gate, trace: seq<Step>, r: Run)
    requires !g.Pass? && r == Settle(persisters, g)
    requires |trace| <= |g.trace| && g.trace[..|trace|] == trace
    requires forall i :: |trace| <= i < |g.trace| ==> g.trace[i] != Produced(IssueReceiptCommand)
                                                      && g.trace[i] != Produced(CancelTransferCommand)
    ensures Produced(IssueReceiptCommand) !in r.trace[|trace|..]
    ensures Produced(CancelTransferCommand) !in r.trace[|trace|..]
  {
    assert r.trace == g.trace || r.trace == g.trace + [Persisted(Fail)];
    forall i | |trace| <= i < |r.trace|
      ensures r.trace[i] != Produced(IssueReceiptCommand) && r.trace[i] != Produced(CancelTransferCommand)
    {
      if i < |g.trace| {
        assert r.trace[i] == g.trace[i];
      }
    }
  }

  lemma ForwardOutcome(producers: Producers, persisters: Persisters, timeouts: Timeouts,
                       context: Option<OrchestrationContext>, replies: Replies, trace: seq<Step>)
    ensures var r := Forward(producers, persisters, timeouts, context, replies, trace);
      && (r.outcome == Ok(Success) <==>
            Validated(producers, timeouts, context, replies) && Transferred(producers, timeouts, context, replies)
            && Issued(producers, timeouts, context, replies) && Returns(persisters, Success))
      && (r.outcome == Ok(Cancelled) <==>
            Validated(producers, timeouts, context, replies) && Transferred(producers, timeouts, context, replies)
            && NotIssued(producers, timeouts, context, replies) && Compensated(producers, timeouts, context, replies)
            && Returns(persisters, Cancelled))
      && (r.outcome.Ok? ==> r.outcome.value != Pending)
      && EndsPersisting(r)
      && OnlyWaitsThrow(producers, persisters, r)
  {
    var validation := ProduceStep(producers, ValidateTransferCommand, trace);
    if validation.Pass? {
      var validated := WaitStep(context, Validator, ValidatorTimeout(timeouts), replies.validator,
                                TransferValidatedEvent.Name(), validation.trace);
      if validated.Pass? {
        TransferStageOutcome(producers, persisters, timeouts, context, replies, validated.trace);
      }
    }
  }

  lemma ForwardShape(producers: Producers, persisters: Persisters, timeouts: Timeouts,
                     context: Option<OrchestrationContext>, replies: Replies, trace: seq<Step>)
    ensures var r := Forward(producers, persisters, timeouts, context, replies, trace);
      && (ValidateTransferCommand.Name() !in producers ==>
            r == Run(Err(KeyNotFoundException(ValidateTransferCommand.Name())), trace))
      && (ValidateTransferCommand.Name() in producers ==>
            |r.trace| > |trace| && r.trace[|trace|] == Produced(ValidateTransferCommand))
      && (Rejects(producers, ValidateTransferCommand) ==>
            r == Finish(persisters, Fail, trace + [Produced(ValidateTransferCommand)]))
  {
    var validation := ProduceStep(producers, ValidateTransferCommand, trace);
    if validation.Pass? {
      var validated := WaitStep(context, Validator, ValidatorTimeout(timeouts), replies.validator,
                                TransferValidatedEvent.Name(), validation.trace);
      if validated.Pass? {
        var r := TransferStage(producers, persisters, timeouts, context, replies, validated.trace);
        assert validated.trace[|trace|] == validation.trace[|trace|] == Produced(ValidateTransferCommand);
        assert r.trace[|trace|] == r.trace[..|validated.trace|][|trace|];
      }
    }
  }

  /** Each later command is produced only after every earlier one was valid and answered as the saga needs. */
  lemma ForwardGates(producers: Producers, persisters: Persisters, timeouts: Timeouts,
                     context: Option<OrchestrationContext>, replies: Replies, trace: seq<Step>)
    ensures var r := Forward(producers, persisters, timeouts, context, replies, trace);
      && (Produced(TransferCommand) in r.trace[|trace|..] ==> Validated(producers, timeouts, context, replies))
      && (Produced(IssueReceiptCommand) in r.trace[|trace|..] ==>
            Validated(producers, timeouts, context, replies) && Transferred(producers, timeouts, context, replies))
      && (Produced(CancelTransferCommand) in r.trace[|trace|..] ==>
            Validated(producers, timeouts, context, replies) && Transferred(producers, timeouts, context, replies)
            && NotIssued(producers, timeouts, context, replies))
  {
    var r := Forward(producers, persisters, timeouts, context, replies, trace);
    var validation := ProduceStep(producers, ValidateTransferCommand, trace);
    if !validation.Pass? {
      NoLaterCommands(persisters, validation, trace, r);
      NoTransferCommand(persisters, validation, trace, r);
    } else {
      var validated := WaitStep(context, Validator, ValidatorTimeout(timeouts), replies.validator,
                                TransferValidatedEvent.Name(), validation.trace);
      if !validated.Pass? {
        NoLaterCommands(persisters, validated, trace, r);
        NoTransferCommand(persisters, validated, trace, r);
      } else {
        LaterGates(producers, persisters, timeouts, context, replies, trace, validated.trace);
      }
    }
  }

  /** After the validation step passed, the later commands are gated as in the transfer stage. */
  lemma LaterGates(producers: Producers, persisters: Persisters, timeouts: Timeouts,
                   context: Option<OrchestrationContext>, replies: Replies, trace: seq<Step>, mid: seq<Step>)
    requires |trace| <= |mid| && mid[..|trace|] == trace
    requires Produced(IssueReceiptCommand) !in mid[|trace|..] && Produced(CancelTransferCommand) !in mid[|trace|..]
    ensures var r := TransferStage(producers, persisters, timeouts, context, replies, mid);
      && (Produced(IssueReceiptCommand) in r.trace[|trace|..] ==> Transferred(producers, timeouts, context, replies))
      && (Produced(CancelTransferCommand) in r.trace[|trace|..] ==>
            Transferred(producers, timeouts, context, replies) && NotIssued(producers, timeouts, context, replies))
  {
    var r := TransferStage(producers, persisters, timeouts, context, replies, mid);
    TransferStageGates(producers, persisters, timeouts, context, replies, mid);
    InNewSteps(trace, mid, r.trace, Produced(IssueReceiptCommand));
    InNewSteps(trace, mid, r.trace, Produced(CancelTransferCommand));
  }

  /** A run settled after the validation step holds no transfer command after `trace`. */
  lemma NoTransferCommand(persisters: Persisters, g: Gate, trace: seq<Step>, r: Run)
    requires !g.Pass? && r == Settle(persisters, g)
    requires |trace| <= |g.trace| && g.trace[..|trace|] == trace
    requires forall i :: |trace| <= i < |g.trace| ==> g.trace[i] != Produced(TransferCommand)
    ensures Produced(TransferCommand) !in r.trace[|trace|..]
  {
    assert r.trace == g.trace || r.trace == g.trace + [Persisted(Fail)];
    forall i | |trace| <= i < |r.trace|
      ensures r.trace[i] != Produced(TransferCommand)
    {
      if i < |g.trace| {
        assert r.trace[i] == g.trace[i];
      }
    }
  }

  /** The Pending persister was called and returned true. */
  predicate PendingStored(persisters: Persisters)
  {
    Pending.Name() in persisters && persisters[Pending.Name()] == Ok(true)
  }

  /**
   * The Pending persister is always called first, and a missing Pending key
   * throws before anything is called; when it returns false the run is Fail
   * and nothing else is called.
   */
  lemma PendingFirst(producers: Producers, persisters: Persisters, timeouts: Timeouts,
                     context: Option<OrchestrationContext>, replies: Replies)
    ensures var r := Orchestrate(producers, persisters, timeouts, context, replies);
      && (r.trace == [] <==> Pending.Name() !in persisters)
      && (r.trace == [] ==> r.outcome == Err(KeyNotFoundException(Pending.Name())))
      && (r.trace != [] ==> r.trace[0] == Persisted(Pending))
      && (Pending.Name() in persisters && persisters[Pending.Name()] == Ok(false) ==>
            r == Run(Ok(Fail), [Persisted(Pending)]))
      && (|r.trace| > 1 ==> PendingStored(persisters))
  {
    var pending := Persist(persisters, Pending, []);
    if pending.Pass? {
      var r := Forward(producers, persisters, timeouts, context, replies, pending.trace);
      ForwardShape(producers, persisters, timeouts, context, replies, pending.trace);
      assert r.trace[0] == r.trace[..1][0];
    }
  }

  /**
   * Commands are produced in the order ValidateTransfer, Transfer,
   * IssueReceipt, CancelTransfer, none twice; each only after Pending was
   * stored and every earlier command was valid and answered as the saga
   * needs (CancelTransfer only when the receipt wait ended without
   * ReceiptIssuedEvent); and no persister is called twice.
   */
  lemma CommandsInOrder(producers: Producers, persisters: Persisters, timeouts: Timeouts,
                        context: Option<OrchestrationContext>, replies: Replies)
    ensures var r := Orchestrate(producers, persisters, timeouts, context, replies);
      && InOrder(r.trace)
      && (Produced(ValidateTransferCommand) in r.trace ==> PendingStored(persisters))
      && (Produced(TransferCommand) in r.trace ==>
            PendingStored(persisters) && Validated(producers, timeouts, context, replies))
      && (Produced(IssueReceiptCommand) in r.trace ==>
            PendingStored(persisters) && Validated(producers, timeouts, context, replies)
            && Transferred(producers, timeouts, context, replies))
      && (Produced(CancelTransferCommand) in r.trace ==>
            PendingStored(persisters) && Validated(producers, timeouts, context, replies)
            && Transferred(producers, timeouts, context, replies) && NotIssued(producers, timeouts, context, replies))
  {
    var r := Orchestrate(producers, persisters, timeouts, context, replies);
    var pending := Persist(persisters, Pending, []);
    if pending.Pass? {
      ForwardGates(producers, persisters, timeouts, context, replies, pending.trace);
      assert Continues([Persisted(Pending)], r.trace, 0);
      assert r.trace[0] == r.trace[..1][0];
      forall k: CommandKind | Produced(k) in r.trace
        ensures Produced(k) in r.trace[1..]
      {
        var i :| 0 <= i < |r.trace| && r.trace[i] == Produced(k);
        assert r.trace[1..][i - 1] == Produced(k);
      }
    }
  }

  /** What `CommandsInOrder` promises: ranks increase along the trace and no persister is called twice. */
  predicate InOrder(trace: seq<Step>)
  {
    && (forall i, j :: 0 <= i < j < |trace| && trace[i].Produced? && trace[j].Produced? ==>
          Rank(trace[i].kind) < Rank(trace[j].kind))
    && (forall i, j :: 0 <= i < j < |trace| && trace[i].Persisted? && trace[j].Persisted? ==>
          trace[i].state != trace[j].state)
  }

  /**
   * The run returns Success exactly when Pending was stored, the three
   * commands were valid and answered TransferValidatedEvent,
   * TransferSucceededEvent and ReceiptIssuedEvent in time, and the Success
   * persister did not throw; it returns Cancelled exactly when instead the
   * receipt wait ended otherwise, the cancellation command was valid and
   * answered TransferCanceledEvent, and the Cancelled persister did not
   * throw. It never returns Pending, and a returned state was persisted
   * last, except for the Fail of a Pending persister that returned false.
   */
  lemma OutcomeRoutes(producers: Producers, persisters: Persisters, timeouts: Timeouts,
                      context: Option<OrchestrationContext>, replies: Replies)
    ensures var r := Orchestrate(producers, persisters, timeouts, context, replies);
      && (r.outcome == Ok(Success) <==>
            PendingStored(persisters) && Validated(producers, timeouts, context, replies)
            && Transferred(producers, timeouts, context, replies) && Issued(producers, timeouts, context, replies)
            && Returns(persisters, Success))
      && (r.outcome == Ok(Cancelled) <==>
            PendingStored(persisters) && Validated(producers, timeouts, context, replies)
            && Transferred(producers, timeouts, context, replies) && NotIssued(producers, timeouts, context, replies)
            && Compensated(producers, timeouts, context, replies) && Returns(persisters, Cancelled))
      && (r.outcome.Ok? ==> r.outcome.value != Pending)
      && (r.outcome.Ok? && r != Run(Ok(Fail), [Persisted(Pending)]) ==>
            |r.trace| >= 2 && r.trace[|r.trace| - 1] == Persisted(r.outcome.value))
  {
    var pending := Persist(persisters, Pending, []);
    if pending.Pass? {
      ForwardOutcome(producers, persisters, timeouts, context, replies, pending.trace);
      ForwardShape(producers, persisters, timeouts, context, replies, pending.trace);
    }
  }

  /**
   * With both tables holding every key and no closure throwing, the run
   * throws only from a wait (a missing context, or a deadline past the last
   * date), and that is an ArgumentException.
   */
  lemma FullTablesOnlyWaitsThrow(producers: Producers, persisters: Persisters, timeouts: Timeouts,
                                 context: Option<OrchestrationContext>, replies: Replies)
    requires Full(producers, persisters) && Quiet(producers, persisters)
    ensures var r := Orchestrate(producers, persisters, timeouts, context, replies);
      r.outcome.Err? ==> r.outcome.error.IsArgumentException()
  {
    var pending := Persist(persisters, Pending, []);
    assert Pending.Name() in persisters;
    if pending.Pass? {
      ForwardOutcome(producers, persisters, timeouts, context, replies, pending.trace);
    }
  }

  /**
   * A key the run reaches and the table lacks throws KeyNotFoundException
   * out of the run: with Pending stored and the validation answered, a
   * missing TransferCommand producer ends the run with that exception,
   * having called nothing more.
   */
  lemma MissingKeyThrows(producers: Producers, persisters: Persisters, timeouts: Timeouts,
                         context: Option<OrchestrationContext>, replies: Replies)
    requires PendingStored(persisters) && Validated(producers, timeouts, context, replies)
    requires TransferCommand.Name() !in producers
    ensures var r := Orchestrate(producers, persisters, timeouts, context, replies);
      r.outcome == Err(KeyNotFoundException(TransferCommand.Name())) && |r.trace| == 3
      && r.trace[0] == Persisted(Pending) && r.trace[1] == Produced(ValidateTransferCommand)
      && r.trace[2].Awaited? && r.trace[2].source == Validator
  {
    var pending := Persist(persisters, Pending, []);
    var validation := ProduceStep(producers, ValidateTransferCommand, pending.trace);
    var validated := WaitStep(context, Validator, ValidatorTimeout(timeouts), replies.validator,
                              TransferValidatedEvent.Name(), validation.trace);
    TransferStageShape(producers, persisters, timeouts, context, replies, validated.trace);
  }

  /** Every command in the trace from `from` on that got an invalid result was followed only by the Fail persister. */
  predicate RejectionEnds(producers: Producers, persisters: Persisters, r: Run, from: nat)
  {
    forall i :: from <= i < |r.trace| && r.trace[i].Produced? && Rejects(producers, r.trace[i].kind) ==>
      r == Finish(persisters, Fail, r.trace[..i + 1])
  }

  /**
   * A stage whose command was valid and whose wait passed hands on to the
   * next stage: rejections from `trace` on are those from the next stage on.
   */
  lemma ChainRejection(producers: Producers, persisters: Persisters, trace: seq<Step>, mid: seq<Step>, r: Run)
    requires |mid| == |trace| + 2 && mid[|trace|].Produced? && !Rejects(producers, mid[|trace|].kind)
    requires !mid[|trace| + 1].Produced?
    requires |mid| <= |r.trace| && r.trace[..|mid|] == mid
    requires RejectionEnds(producers, persisters, r, |mid|)
    ensures RejectionEnds(producers, persisters, r, |trace|)
  {
    forall i | |trace| <= i < |mid|
      ensures r.trace[i] == mid[i]
    {
      assert r.trace[..|mid|][i] == r.trace[i];
    }
  }

  /**
   * A stage that ends the run itself: the only command it adds is its own,
   * first, and if that got an invalid result the stage is the Fail persister
   * right after it.
   */
  lemma LocalRejection(producers: Producers, persisters: Persisters, trace: seq<Step>, k: CommandKind, r: Run)
    requires |trace| <= |r.trace| && r.trace[..|trace|] == trace
    requires forall i :: |trace| < i < |r.trace| ==> !r.trace[i].Produced?
    requires |trace| < |r.trace| ==> r.trace[|trace|] == Produced(k)
    requires Rejects(producers, k) ==> r == Finish(persisters, Fail, trace + [Produced(k)])
    ensures RejectionEnds(producers, persisters, r, |trace|)
  {
    forall i | |trace| <= i < |r.trace| && r.trace[i].Produced? && Rejects(producers, r.trace[i].kind)
      ensures r == Finish(persisters, Fail, r.trace[..i + 1])
    {
      assert i == |trace|;
      assert r.trace[..i + 1] == trace + [Produced(k)];
    }
  }

  lemma CompensateRejectionEnds(producers: Producers, persisters: Persisters, timeouts: Timeouts,
                                context: Option<OrchestrationContext>, replies: Replies, trace: seq<Step>)
    ensures RejectionEnds(producers, persisters, Compensate(producers, persisters, timeouts, context, replies, trace), |trace|)
  {
    var r := Compensate(producers, persisters, timeouts, context, replies, trace);
    CompensateOutcome(producers, persisters, timeouts, context, replies, trace);
    LocalRejection(producers, persisters, trace, CancelTransferCommand, r);
  }

  lemma ReceiptStageRejectionEnds(producers: Producers, persisters: Persisters, timeouts: Timeouts,
                                  context: Option<OrchestrationContext>, replies: Replies, trace: seq<Step>)
    ensures RejectionEnds(producers, persisters, ReceiptStage(producers, persisters, timeouts, context, replies, trace), |trace|)
  {
    var r := ReceiptStage(producers, persisters, timeouts, context, replies, trace);
    var receipt := ProduceStep(producers, IssueReceiptCommand, trace);
    if !receipt.Pass? {
      LocalRejection(producers, persisters, trace, IssueReceiptCommand, r);
    } else {
      var issued := WaitStep(context, Receipt, ReceiptTimeout(timeouts), replies.receipt,
                             ReceiptIssuedEvent.Name(), receipt.trace);
      if issued.Abort? {
        LocalRejection(producers, persisters, trace, IssueReceiptCommand, r);
      } else {
        if issued.Reject? {
          CompensateRejectionEnds(producers, persisters, timeouts, context, replies, issued.trace);
        }
        ChainRejection(producers, persisters, trace, issued.trace, r);
      }
    }
  }

  lemma TransferStageRejectionEnds(producers: Producers, persisters: Persisters, timeouts: Timeouts,
                                   context: Option<OrchestrationContext>, replies: Replies, trace: seq<Step>)
    ensures RejectionEnds(producers, persisters, TransferStage(producers, persisters, timeouts, context, replies, trace), |trace|)
  {
    var r := TransferStage(producers, persisters, timeouts, context, replies, trace);
    var transfer := ProduceStep(producers, TransferCommand, trace);
    if !transfer.Pass? {
      LocalRejection(producers, persisters, trace, TransferCommand, r);
    } else {
      var transferred := WaitStep(context, Transfer, TransferTimeout(timeouts), replies.transfer,
                                  TransferSucceededEvent.Name(), transfer.trace);
      if !transferred.Pass? {
        LocalRejection(producers, persisters, trace, TransferCommand, r);
      } else {
        ReceiptStageRejectionEnds(producers, persisters, timeouts, context, replies, transferred.trace);
        ChainRejection(producers, persisters, trace, transferred.trace, r);
      }
    }
  }

  lemma ForwardRejectionEnds(producers: Producers, persisters: Persisters, timeouts: Timeouts,
                             context: Option<OrchestrationContext>, replies: Replies, trace: seq<Step>)
    ensures RejectionEnds(producers, persisters, Forward(producers, persisters, timeouts, context, replies, trace), |trace|)
  {
    var r := Forward(producers, persisters, timeouts, context, replies, trace);
    var validation := ProduceStep(producers, ValidateTransferCommand, trace);
    if !validation.Pass? {
      LocalRejection(producers, persisters, trace, ValidateTransferCommand, r);
    } else {
      var validated := WaitStep(context, Validator, ValidatorTimeout(timeouts), replies.validator,
                                TransferValidatedEvent.Name(), validation.trace);
      if !validated.Pass? {
        LocalRejection(producers, persisters, trace, ValidateTransferCommand, r);
      } else {
        TransferStageRejectionEnds(producers, persisters, timeouts, context, replies, validated.trace);
        ChainRejection(producers, persisters, trace, validated.trace, r);
      }
    }
  }

  /**
   * A command producer that returns an invalid result ends the run: the
   * Fail persister is the only closure called after it, and the run returns
   * what that persister makes of the Fail state.
   */
  lemma InvalidResultFails(producers: Producers, persisters: Persisters, timeouts: Timeouts,
                           context: Option<OrchestrationContext>, replies: Replies)
    ensures RejectionEnds(producers, persisters, Orchestrate(producers, persisters, timeouts, context, replies), 0)
  {
    var r := Orchestrate(producers, persisters, timeouts, context, replies);
    var pending := Persist(persisters, Pending, []);
    if pending.Pass? {
      ForwardRejectionEnds(producers, persisters, timeouts, context, replies, pending.trace);
      RejectionEndsFromStart(producers, persisters, pending.trace, r);
    } else {
      RejectionEndsFromStart(producers, persisters, pending.trace, r);
    }
  }

  /** Steps that produce nothing leave the rejections from the start those after them. */
  lemma RejectionEndsFromStart(producers: Producers, persisters: Persisters, trace: seq<Step>, r: Run)
    requires |trace| <= |r.trace| && r.trace[..|trace|] == trace
    requires forall i :: 0 <= i < |trace| ==> !trace[i].Produced?
    requires RejectionEnds(producers, persisters, r, |trace|)
    ensures RejectionEnds(producers, persisters, r, 0)
  {
    forall i | 0 <= i < |trace|
      ensures !r.trace[i].Produced?
    {
      assert r.trace[i] == r.trace[..|trace|][i];
    }
  }

  /** `persisters` with the terminal persister of `state` returning `b` instead. */
  function Answering(persisters: Persisters, state: SagaState, b: bool): Persisters
  {
    persisters[state.Name() := Ok(b)]
  }

  /** A terminal persister that returns leaves the same run, whatever boolean it returns. */
  lemma FinishIgnoresResult(persisters: Persisters, state: SagaState, b: bool, finished: SagaState, trace: seq<Step>)
    requires state != Pending && Returns(persisters, state)
    ensures Finish(Answering(persisters, state, b), finished, trace) == Finish(persisters, finished, trace)
  {
    SagaStateNamesDistinct(state, finished);
  }

  lemma CompensateIgnoresResult(producers: Producers, persisters: Persisters, timeouts: Timeouts,
                                context: Option<OrchestrationContext>, replies: Replies, trace: seq<Step>,
                                state: SagaState, b: bool)
    requires state != Pending && Returns(persisters, state)
    ensures Compensate(producers, Answering(persisters, state, b), timeouts, context, replies, trace)
         == Compensate(producers, persisters, timeouts, context, replies, trace)
  {
    var cancel := ProduceStep(producers, CancelTransferCommand, trace);
    var cancelled := WaitStep(context, Transfer, TransferTimeout(timeouts), replies.compensation,
                              TransferCanceledEvent.Name(), cancel.trace);
    FinishIgnoresResult(persisters, state, b, Fail, cancel.trace);
    FinishIgnoresResult(persisters, state, b, if cancelled.Pass? then Cancelled else Fail, cancelled.trace);
  }

  lemma ReceiptStageIgnoresResult(producers: Producers, persisters: Persisters, timeouts: Timeouts,
                                  context: Option<OrchestrationContext>, replies: Replies, trace: seq<Step>,
                                  state: SagaState, b: bool)
    requires state != Pending && Returns(persisters, state)
    ensures ReceiptStage(producers, Answering(persisters, state, b), timeouts, context, replies, trace)
         == ReceiptStage(producers, persisters, timeouts, context, replies, trace)
  {
    var receipt := ProduceStep(producers, IssueReceiptCommand, trace);
    var issued := WaitStep(context, Receipt, ReceiptTimeout(timeouts), replies.receipt,
                           ReceiptIssuedEvent.Name(), receipt.trace);
    FinishIgnoresResult(persisters, state, b, Fail, receipt.trace);
    FinishIgnoresResult(persisters, state, b, Success, issued.trace);
    CompensateIgnoresResult(producers, persisters, timeouts, context, replies, issued.trace, state, b);
  }

  lemma TransferStageIgnoresResult(producers: Producers, persisters: Persisters, timeouts: Timeouts,
                                   context: Option<OrchestrationContext>, replies: Replies, trace: seq<Step>,
                                   state: SagaState, b: bool)
    requires state != Pending && Returns(persisters, state)
    ensures TransferStage(producers, Answering(persisters, state, b), timeouts, context, replies, trace)
         == TransferStage(producers, persisters, timeouts, context, replies, trace)
  {
    var transfer := ProduceStep(producers, TransferCommand, trace);
    var transferred := WaitStep(context, Transfer, TransferTimeout(timeouts), replies.transfer,
                                TransferSucceededEvent.Name(), transfer.trace);
    FinishIgnoresResult(persisters, state, b, Fail, transfer.trace);
    FinishIgnoresResult(persisters, state, b, Fail, transferred.trace);
    ReceiptStageIgnoresResult(producers, persisters, timeouts, context, replies, transferred.trace, state, b);
  }

  lemma ForwardIgnoresResult(producers: Producers, persisters: Persisters, timeouts: Timeouts,
                             context: Option<OrchestrationContext>, replies: Replies, trace: seq<Step>,
                             state: SagaState, b: bool)
    requires state != Pending && Returns(persisters, state)
    ensures Forward(producers, Answering(persisters, state, b), timeouts, context, replies, trace)
         == Forward(producers, persisters, timeouts, context, replies, trace)
  {
    var validation := ProduceStep(producers, ValidateTransferCommand, trace);
    var validated := WaitStep(context, Validator, ValidatorTimeout(timeouts), replies.validator,
                              TransferValidatedEvent.Name(), validation.trace);
    FinishIgnoresResult(persisters, state, b, Fail, validation.trace);
    FinishIgnoresResult(persisters, state, b, Fail, validated.trace);
    TransferStageIgnoresResult(producers, persisters, timeouts, context, replies, validated.trace, state, b);
  }

  /**
   * The boolean a terminal persister (Success, Cancelled or Fail) returns
   * is ignored: as long as it does not throw, the run is the same whatever
   * it returns. Only Pending's boolean decides anything.
   */
  lemma TerminalResultIgnored(producers: Producers, persisters: Persisters, timeouts: Timeouts,
                              context: Option<OrchestrationContext>, replies: Replies, state: SagaState, b: bool)
    requires state != Pending && Returns(persisters, state)
    ensures Orchestrate(producers, Answering(persisters, state, b), timeouts, context, replies)
         == Orchestrate(producers, persisters, timeouts, context, replies)
  {
    SagaStateNamesDistinct(state, Pending);
    var pending := Persist(persisters, Pending, []);
    assert Persist(Answering(persisters, state, b), Pending, []) == pending;
    ForwardIgnoresResult(producers, persisters, timeouts, context, replies, pending.trace, state, b);
  }
}
