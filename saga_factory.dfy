/**
 * `SagaFactory`: how the orchestrator persists a saga state, by running the
 * `SagaOrchestratorActivity` on a copy of the transaction stamped with the
 * state, raced against a timer.
 */
module SagaFactory {
  import opened Basics
  import opened Transactions
  import opened DurableContext
  import opened ActivityFactory

  /** The name of the activity that writes the transaction table. */
  const OrchestratorActivityFunction: string := "SagaOrchestratorActivity"

  /**
   * The activity the private `PersistSagaStateAsync(context, item)` races:
   * the persisting function on a field-by-field copy of the item, with the
   * configured timeout in seconds.
   */
  function PersistenceActivity(context: Option<OrchestrationContext>, item: TransactionItem,
                               timeoutSeconds: Int32): Activity<TransactionItem>
  {
    var finishedItem := TransactionItem(item.id, item.state, item.accountFromId, item.accountToId, item.amount);
    Activity(OrchestratorActivityFunction, finishedItem, context, FromSeconds(timeoutSeconds))
  }

  /**
   * `PersistSagaStateAsync(transactionItem, state, context, log)`: true
   * exactly when the persisting activity's result is valid, false (and an
   * error logged) otherwise; an exception of the race propagates.
   * `createdId` is the GUID of the default item the race builds for a
   * timeout; `outcome` says who won.
   */
  function PersistSagaState(transactionItem: TransactionItem, state: SagaState, context: Option<OrchestrationContext>,
                            timeoutSeconds: Int32, createdId: string,
                            outcome: Race<ActivityOutcome<TransactionItem>>): Result<bool, Exception>
  {
    var item := BuildTransactionItemByState(transactionItem, state);
    match CallWithTimeout(Some(PersistenceActivity(context, item, timeoutSeconds)), NewTransactionItem(createdId), outcome)
    case Err(e) => Err(e)
    case Ok(raced) => Ok(raced.result.valid)
  }

  /**
   * The persisting activity is `SagaOrchestratorActivity`, given the item
   * with the state replaced by the state's name and nothing else changed,
   * and a timeout of the configured number of seconds.
   */
  lemma PersistsStampedCopy(transactionItem: TransactionItem, state: SagaState, context: Option<OrchestrationContext>,
                            timeoutSeconds: Int32)
    ensures var a := PersistenceActivity(context, BuildTransactionItemByState(transactionItem, state), timeoutSeconds);
      && a.functionName == OrchestratorActivityFunction
      && a.input == transactionItem.(state := state.Name())
      && a.context == context
      && a.timeout == timeoutSeconds * TicksPerSecond
  {
  }

  /**
   * With a context and a deadline that is a date, the state is reported
   * persisted exactly when the activity beats the timer, and the activity
   * was then scheduled with the stamped copy. A null context or a deadline
   * past the last date throws instead.
   */
  lemma PersistedIffActivityWins(transactionItem: TransactionItem, state: SagaState, context: Option<OrchestrationContext>,
                                 timeoutSeconds: Int32, createdId: string,
                                 outcome: Race<ActivityOutcome<TransactionItem>>)
    ensures var r := PersistSagaState(transactionItem, state, context, timeoutSeconds, createdId, outcome);
      && (r.Ok? <==> context.Some? && 0 <= context.value.currentUtcDateTime + timeoutSeconds * TicksPerSecond <= MaxTicks)
      && (r.Ok? ==> (r.value <==> outcome.TaskFirst?))
      && (context.None? ==> r == Err(NullDereference))
  {
    var item := BuildTransactionItemByState(transactionItem, state);
    var a := PersistenceActivity(context, item, timeoutSeconds);
    if context.Some? && 0 <= context.value.currentUtcDateTime + a.timeout <= MaxTicks {
      RaceOutcome(a, NewTransactionItem(createdId), outcome);
    } else {
      RaceErrors(a, NewTransactionItem(createdId), outcome);
    }
  }
}
