/**
 * `ActivityFactory`: an activity raced against a durable timer, and the
 * four producer steps of the orchestrator, each of which builds a command
 * and hands it to the producer activity of its class.
 */
module ActivityFactory {
  import opened Basics
  import opened Messaging
  import opened Transactions
  import opened DurableContext
  import ConstantStrings
  import CommandFactory
  import Producing

  /** What to call, with what, in which orchestration and with how much time. */
  datatype Activity<T> = Activity(functionName: string, input: T, context: Option<OrchestrationContext>,
                                  timeout: TimeSpan)

  /** `ActivityResult<T>`: `Valid` defaults to true and `ExceptionMessage` to the empty string. */
  datatype ActivityResult<T> = ActivityResult(valid: bool, item: T, exceptionMessage: string)

  /** A result with the defaults and the given item. */
  function ValidResult<T>(item: T): ActivityResult<T>
  {
    ActivityResult(true, item, "")
  }

  /** How an activity task ends: with a value, or faulted. */
  datatype ActivityOutcome<T> = Returns(value: T) | Throws(exception: Exception)

  /** An activity the orchestration schedules: its name and its input. */
  datatype ActivityCall<T> = ActivityCall(functionName: string, input: T)

  /** A finished race: the result, the activity scheduled if any, and the timer if one was created. */
  datatype Raced<T> = Raced(result: ActivityResult<T>, scheduled: Option<ActivityCall<T>>, timer: Option<Timer>)

  /**
   * `CallActivityWithRetryAndTimeoutAsync` as a value. `created` is what
   * `Activator.CreateInstance<T>()` gives. A null activity yields an invalid
   * result with ExceptionMessage, and nothing is scheduled. Otherwise the
   * deadline is computed first (a null context dereferences null, and a
   * deadline that is not a date throws), then the activity is scheduled with
   * its input and the timer set. When the timer wins, the result is invalid
   * with the timeout message naming the function; when the activity wins,
   * however it ended, the timer is cancelled and the result is valid with
   * the activity's input as its item.
   */
  function CallWithTimeout<T>(activity: Option<Activity<T>>, created: T, race: Race<ActivityOutcome<T>>)
    : Result<Raced<T>, Exception>
  {
    if activity.None? then Ok(Raced(ActivityResult(false, created, ConstantStrings.ExceptionMessage), None, None))
    else
      var a := activity.value;
      if a.context.None? then Err(NullDereference)
      else match AddTimeSpan(a.context.value.currentUtcDateTime, a.timeout)
        case Err(e) => Err(e)
        case Ok(deadline) =>
          var call := Some(ActivityCall(a.functionName, a.input));
          match race
          case TimerFirst =>
            Ok(Raced(ActivityResult(false, created, ConstantStrings.TimeoutError(a.functionName)), call,
                     Some(Timer(deadline, false))))
          case TaskFirst(_) => Ok(Raced(ValidResult(a.input), call, Some(Timer(deadline, true))))
  }

  /** A null activity is reported invalid with ExceptionMessage, without scheduling anything or setting a timer. */
  lemma NullActivityIsInvalid<T>(created: T, race: Race<ActivityOutcome<T>>)
    ensures var r := CallWithTimeout(None, created, race);
      r.Ok? && !r.value.result.valid && r.value.result.item == created
      && r.value.result.exceptionMessage == ConstantStrings.ExceptionMessage
      && r.value.scheduled.None? && r.value.timer.None?
  {
  }

  /**
   * A race that gets as far as the timer scheduled the activity by name with
   * its input and set the timer at the context's time plus the timeout. The
   * result is valid exactly when the activity won; then its item is the
   * activity's input, the message is empty and the timer is cancelled, and
   * otherwise the item is the default instance, the message names the
   * function and the timer stays set.
   */
  lemma RaceOutcome<T>(a: Activity<T>, created: T, race: Race<ActivityOutcome<T>>)
    requires a.context.Some? && 0 <= a.context.value.currentUtcDateTime + a.timeout <= MaxTicks
    ensures var r := CallWithTimeout(Some(a), created, race);
      && r.Ok?
      && r.value.scheduled == Some(ActivityCall(a.functionName, a.input))
      && r.value.timer.Some? && r.value.timer.value.deadline == a.context.value.currentUtcDateTime + a.timeout
      && (r.value.result.valid <==> race.TaskFirst?)
      && (r.value.timer.value.cancelled <==> race.TaskFirst?)
      && (race.TaskFirst? ==> r.value.result == ActivityResult(true, a.input, ""))
      && (race.TimerFirst? ==>
            r.value.result == ActivityResult(false, created, ConstantStrings.TimeoutError(a.functionName)))
  {
  }

  /** Which way the activity ended does not matter once it beat the timer: a faulted activity is reported valid too. */
  lemma ActivityValueIsIgnored<T>(activity: Option<Activity<T>>, created: T, o1: ActivityOutcome<T>, o2: ActivityOutcome<T>)
    ensures CallWithTimeout(activity, created, TaskFirst(o1)) == CallWithTimeout(activity, created, TaskFirst(o2))
  {
  }

  /**
   * The race throws only before anything is scheduled: a null context
   * dereferences null, and a deadline past the last date throws from
   * `DateTime.Add`.
   */
  lemma RaceErrors<T>(a: Activity<T>, created: T, race: Race<ActivityOutcome<T>>)
    ensures a.context.None? ==> CallWithTimeout(Some(a), created, race) == Err(NullDereference)
    ensures a.context.Some? && !(0 <= a.context.value.currentUtcDateTime + a.timeout <= MaxTicks) ==>
      CallWithTimeout(Some(a), created, race) == Err(ArgumentOutOfRangeException("value", UnrepresentableDateTime))
  {
  }

  /** `CallActivityWithRetryAndTimeoutAsync<T>(activity)`, with the token source changed in place. */
  method CallActivityWithRetryAndTimeoutAsync<T>(activity: Option<Activity<T>>, created: T,
                                                 race: Race<ActivityOutcome<T>>)
    returns (r: Result<Raced<T>, Exception>)
    ensures r == CallWithTimeout(activity, created, race)
  {
    if activity.None? {
      return Ok(Raced(ActivityResult(false, created, ConstantStrings.ExceptionMessage), None, None));
    }
    var a := activity.value;
    var cts := new CancellationTokenSource();
    if a.context.None? {
      return Err(NullDereference);
    }
    var deadline := AddTimeSpan(a.context.value.currentUtcDateTime, a.timeout);
    if deadline.Err? {
      return Err(deadline.error);
    }
    var call := Some(ActivityCall(a.functionName, a.input));
    if race.TimerFirst? {
      return Ok(Raced(ActivityResult(false, created, ConstantStrings.TimeoutError(a.functionName)), call,
                      Some(Timer(deadline.value, cts.isCancellationRequested))));
    }
    cts.Cancel();
    return Ok(Raced(ValidResult(a.input), call, Some(Timer(deadline.value, cts.isCancellationRequested))));
  }

  /**
   * `RunProducerActivityAsync`: the producer activity's result is wrapped as
   * valid whatever its own `Valid` says; a FunctionFailedException becomes an
   * invalid result with the exception's message and a default ProducerResult;
   * any other exception, and the null dereference of a null context,
   * propagates.
   */
  function RunProducerActivity(context: Option<OrchestrationContext>,
                               outcome: ActivityOutcome<Producing.ProducerResult>)
    : Result<ActivityResult<Producing.ProducerResult>, Exception>
  {
    if context.None? then Err(NullDereference)
    else match outcome
      case Returns(result) => Ok(ValidResult(result))
      case Throws(FunctionFailedException(m)) => Ok(ActivityResult(false, Producing.DefaultProducerResult, m))
      case Throws(e) => Err(e)
  }

  /**
   * With a context, the producer step fails exactly when the activity threw
   * FunctionFailedException, and then reports its message; it throws
   * exactly when the activity threw something else; and a returned
   * ProducerResult is passed on unchanged as a valid item.
   */
  lemma ProducerActivityOutcomes(context: OrchestrationContext, outcome: ActivityOutcome<Producing.ProducerResult>)
    ensures var r := RunProducerActivity(Some(context), outcome);
      && (r.Ok? && !r.value.valid <==> outcome.Throws? && outcome.exception.FunctionFailedException?)
      && (r.Ok? && !r.value.valid ==> r.value.exceptionMessage == outcome.exception.Message()
                                      && r.value.item == Producing.DefaultProducerResult)
      && (r.Err? <==> outcome.Throws? && !outcome.exception.FunctionFailedException?)
      && (r.Err? ==> r.error == outcome.exception)
      && (outcome.Returns? ==> r == Ok(ActivityResult(true, outcome.value, "")))
  {
  }

  /** An unsuccessful publication is still a valid activity result: only the orchestrator's check of `Valid` sees the difference. */
  lemma InvalidPublicationIsValidStep(context: OrchestrationContext, message: Producing.EventData)
    ensures RunProducerActivity(Some(context), Returns(Producing.ProducerResult(false, message))).value.valid
  {
  }

  /** The producer activity that publishes each command class. */
  function ProducerActivityName(kind: CommandKind): string
  {
    match kind
    case ValidateTransferCommand => "ValidateTransferCommandProducerActivity"
    case TransferCommand => "TransferCommandProducerActivity"
    case CancelTransferCommand => "CancelTransferCommandProducerActivity"
    case IssueReceiptCommand => "ReceiptCommandProducerActivity"
  }

  /** A producer step: the activity it calls and what that call gives. */
  datatype Produced = Produced(call: ActivityCall<Command>, result: Result<ActivityResult<Producing.ProducerResult>, Exception>)

  /**
   * `Produce<Kind>CommandAsync(item, context, log)`: builds the command of
   * that class for the item (with the header's GUID and clock reading) and
   * runs the producer activity of that class on it.
   */
  function ProduceCommand(kind: CommandKind, item: TransactionItem, context: Option<OrchestrationContext>,
                          messageId: string, now: DateTime, outcome: ActivityOutcome<Producing.ProducerResult>)
    : Produced
  {
    var command := CommandFactory.Builder(kind, item, messageId, now);
    Produced(ActivityCall(ProducerActivityName(kind), command), RunProducerActivity(context, outcome))
  }

  /**
   * Each producer step calls its own activity, a different one per command
   * class, with the command its class's builder makes for the item: a
   * command whose header names the class and carries the item's id.
   */
  lemma ProducersCallTheirActivity(kind: CommandKind, other: CommandKind, item: TransactionItem,
                                   context: Option<OrchestrationContext>, messageId: string, now: DateTime,
                                   outcome: ActivityOutcome<Producing.ProducerResult>)
    ensures var p := ProduceCommand(kind, item, context, messageId, now, outcome);
      && p.call.functionName == ProducerActivityName(kind)
      && p.call.input == CommandFactory.Builder(kind, item, messageId, now)
      && p.call.input.header.Some? && p.call.input.header.value.messageType == Some(kind.Name())
      && p.call.input.header.value.transactionId == Some(item.id)
      && p.result == RunProducerActivity(context, outcome)
    ensures ProducerActivityName(kind) == ProducerActivityName(other) <==> kind == other
  {
    CommandFactory.BuiltCommandShape(kind, item, messageId, now);
  }
}
