/**
 * What the orchestration reads from the Durable Functions context, and
 * `DurableOrchestrationContextExtensions.WaitForExternalEventWithTimeout`:
 * a race between an external event and a durable timer.
 */
module DurableContext {
  import opened Basics

  /** The context an orchestration runs in: its instance id and its replay-safe current time. */
  datatype OrchestrationContext = OrchestrationContext(instanceId: string, currentUtcDateTime: DateTime)

  /**
   * Which task `Task.WhenAny` hands back over a durable timer: the raced
   * task, with the value it completed with, or the timer. Who finishes
   * first is decided outside the orchestration and given as input.
   */
  datatype Race<T> = TaskFirst(value: T) | TimerFirst

  /** A durable timer: when it fires, and whether its token source was cancelled. */
  datatype Timer = Timer(deadline: DateTime, cancelled: bool)

  /** A finished wait: the value returned (`default(T)` as None), the timer, and the event name waited on. */
  datatype Waited<T> = Waited(value: Option<T>, timer: Timer, eventName: string)

  const TimeSpanMinValue: int := -0x8000_0000_0000_0000

  /** The message of `new ArgumentOutOfRangeException(paramName)`. */
  const OutOfRangeText: string := "Specified argument was out of the range of valid values."

  /**
   * The wait as a value: a null context throws ArgumentNullException on
   * "ctx" before anything is created; the guard compares the timeout with
   * `TimeSpan.MinValue`; the deadline is the context's current time plus
   * the timeout, and `DateTime.Add` throws when that is not a date; the
   * event waited on is named after the source. When the event comes first
   * its value is returned and the timer cancelled; when the timer fires
   * first the default value is returned and nothing is cancelled.
   */
  function AwaitExternalEvent<T>(ctx: Option<OrchestrationContext>, source: Sources, timeout: TimeSpan,
                                 race: Race<T>): Result<Waited<T>, Exception>
  {
    if ctx.None? then Err(ArgumentNullException("ctx"))
    else if timeout < TimeSpanMinValue then Err(ArgumentOutOfRangeException("timeout", OutOfRangeText))
    else match AddTimeSpan(ctx.value.currentUtcDateTime, timeout)
      case Err(e) => Err(e)
      case Ok(deadline) =>
        match race
        case TaskFirst(v) => Ok(Waited(Some(v), Timer(deadline, true), source.Name()))
        case TimerFirst => Ok(Waited(None, Timer(deadline, false), source.Name()))
  }

  /**
   * No timeout is rejected by the guard, negative ones included: with a
   * context the wait fails only when the deadline is not a date, and then
   * with the exception of `DateTime.Add`.
   */
  lemma TimeoutGuardRejectsNothing<T>(ctx: OrchestrationContext, source: Sources, timeout: TimeSpan, race: Race<T>)
    ensures var r := AwaitExternalEvent(Some(ctx), source, timeout, race);
      && (r.Ok? <==> 0 <= ctx.currentUtcDateTime + timeout <= MaxTicks)
      && (r.Err? ==> r.error == ArgumentOutOfRangeException("value", UnrepresentableDateTime))
  {
  }

  /** A null context is rejected with ArgumentNullException on "ctx", whatever the race. */
  lemma NullContextThrows<T>(source: Sources, timeout: TimeSpan, race: Race<T>)
    ensures AwaitExternalEvent(None, source, timeout, race) == Err(ArgumentNullException("ctx"))
    ensures AwaitExternalEvent(None, source, timeout, race).error.IsArgumentException()
  {
  }

  /**
   * A finished wait listened for the source's name, set its timer at the
   * context's time plus the timeout, returned the event's value exactly
   * when the event won, and cancelled the timer exactly then.
   */
  lemma WaitOutcome<T>(ctx: OrchestrationContext, source: Sources, timeout: TimeSpan, race: Race<T>)
    requires AwaitExternalEvent(Some(ctx), source, timeout, race).Ok?
    ensures var w := AwaitExternalEvent(Some(ctx), source, timeout, race).value;
      && w.eventName == source.Name()
      && w.timer.deadline == ctx.currentUtcDateTime + timeout
      && (w.timer.cancelled <==> race.TaskFirst?)
      && (race.TaskFirst? ==> w.value == Some(race.value))
      && (race.TimerFirst? ==> w.value.None?)
  {
  }

  /** `WaitForExternalEventWithTimeout<T>(ctx, source, timeout)`. */
  method WaitForExternalEventWithTimeout<T>(ctx: Option<OrchestrationContext>, source: Sources, timeout: TimeSpan,
                                            race: Race<T>) returns (r: Result<Waited<T>, Exception>)
    ensures r == AwaitExternalEvent(ctx, source, timeout, race)
  {
    if ctx.None? {
      return Err(ArgumentNullException("ctx"));
    }
    if timeout < TimeSpanMinValue {
      return Err(ArgumentOutOfRangeException("timeout", OutOfRangeText));
    }
    var cts := new CancellationTokenSource();
    var timeoutAt := AddTimeSpan(ctx.value.currentUtcDateTime, timeout);
    if timeoutAt.Err? {
      return Err(timeoutAt.error);
    }
    var eventName := source.Name();
    var value: Option<T> := None;
    if race.TaskFirst? {
      cts.Cancel();
      value := Some(race.value);
    }
    return Ok(Waited(value, Timer(timeoutAt.value, cts.isCancellationRequested), eventName));
  }
}
