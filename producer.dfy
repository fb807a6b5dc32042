/**
 * `Producer.ProduceCommandWithRetryAsync`: one message posted to an Event
 * Hubs output binding through a Polly retry policy wrapped around a
 * consecutive-count circuit breaker. Every exception that escapes both
 * policies is logged and collapsed into `Valid = false`.
 */
module Producing {
  import opened Basics
  import opened Collectors

  /** An Event Hubs `EventData`: the message's serialized bytes. */
  datatype EventData = EventData(body: seq<byte>)

  /** `new EventData(Encoding.UTF8.GetBytes(string.Empty))`. */
  const EmptyEventData: EventData := EventData([])

  /** `ProducerResult`; `new ProducerResult()` is valid, with an empty message. */
  datatype ProducerResult = ProducerResult(valid: bool, message: EventData)

  const DefaultProducerResult: ProducerResult := ProducerResult(true, EmptyEventData)

  /**
   * The three settings read from the environment: the retries after the
   * first attempt, the consecutive failures that open the circuit, and how
   * many seconds it then stays open.
   */
  datatype ProducerSettings = ProducerSettings(maxRetryAttempts: nat, exceptionsAllowed: nat, breakDuration: nat)

  /** The settings Polly accepts: at least one failure before breaking, and a representable break. */
  predicate ValidSettings(cfg: ProducerSettings)
  {
    cfg.exceptionsAllowed >= 1 && cfg.breakDuration <= 922337203685
  }

  datatype CircuitState = Closed | Open

  /**
   * The circuit breaker's controller: its state, the consecutive failures
   * counted while closed, and the tick until which an open circuit rejects
   * calls.
   */
  datatype Breaker = Breaker(circuit: CircuitState, failures: nat, blockedTill: DateTime)

  /** The breaker a new policy starts with. */
  const ClosedBreaker: Breaker := Breaker(Closed, 0, MinValue)

  /** A closed circuit has fewer failures than it allows. */
  predicate BreakerValid(cfg: ProducerSettings, b: Breaker)
  {
    b.circuit.Closed? ==> b.failures < cfg.exceptionsAllowed
  }

  /** The end of a break that starts at `now`, saturating at `DateTime.MaxValue`. */
  function BlockedTill(cfg: ProducerSettings, now: DateTime): (t: DateTime)
    requires ValidSettings(cfg)
    ensures t >= now
    ensures t == now + FromSeconds(cfg.breakDuration) || t == MaxTicks
  {
    var duration := FromSeconds(cfg.breakDuration);
    if duration > MaxTicks - now then MaxTicks else now + duration
  }

  /** A log line the producer writes. */
  datatype LogEntry = Warning(retryCount: nat, exception: Exception) | Error(errorMessage: string)

  /** One call through the breaker: its new state, the collector's, and what the call threw. */
  datatype Attempted = Attempted(breaker: Breaker, collector: Option<Store<EventData>>, fault: Option<Exception>)

  /** `MessagesCollector.AddAsync(eventData)`; on a null collector it throws a NullReferenceException. */
  function Deliver(collector: Option<Store<EventData>>, data: EventData): (Option<Store<EventData>>, Option<Exception>)
  {
    if collector.None? then (None, Some(NullDereference))
    else
      var a := AddTo(collector.value, data);
      (Some(a.store), a.fault)
  }

  /**
   * One execution through the circuit breaker at time `now`. An open
   * circuit whose break has not ended rejects it with a
   * BrokenCircuitException without running it, and that rejection is not a
   * failure. Otherwise the action runs (once the break has ended, as the
   * half-open trial): success closes the circuit and clears the count; a
   * failure of the trial opens it again, and a failure while closed opens
   * it once the count reaches the allowed number.
   */
  function Try(cfg: ProducerSettings, b: Breaker, collector: Option<Store<EventData>>, data: EventData,
               now: DateTime): Attempted
    requires ValidSettings(cfg)
  {
    if b.circuit.Open? && now < b.blockedTill then Attempted(b, collector, Some(BrokenCircuitException))
    else
      var (delivered, fault) := Deliver(collector, data);
      if fault.None? then Attempted(Breaker(Closed, 0, b.blockedTill), delivered, None)
      else if b.circuit.Open? then Attempted(Breaker(Open, b.failures, BlockedTill(cfg, now)), delivered, fault)
      else if b.failures + 1 >= cfg.exceptionsAllowed then
        Attempted(Breaker(Open, b.failures + 1, BlockedTill(cfg, now)), delivered, fault)
      else Attempted(Breaker(Closed, b.failures + 1, b.blockedTill), delivered, fault)
  }

  /** The outcome of a call: the result, the breaker and collector after it, and the log. */
  datatype Run = Run(result: ProducerResult, breaker: Breaker, collector: Option<Store<EventData>>, log: seq<LogEntry>)

  /**
   * Attempt `attempt` and the retries after it. The retry policy handles
   * every exception: after a failed attempt with retries left it logs a
   * warning with the retry's number and tries again; after the last it lets
   * the exception escape, and the producer logs it and answers invalid.
   * `clock(k)` is the time at attempt `k`.
   */
  function Publish(cfg: ProducerSettings, b: Breaker, collector: Option<Store<EventData>>, data: EventData,
                   clock: nat -> DateTime, attempt: nat, log: seq<LogEntry>): Run
    requires ValidSettings(cfg) && attempt <= cfg.maxRetryAttempts
    decreases cfg.maxRetryAttempts - attempt
  {
    var t := Try(cfg, b, collector, data, clock(attempt));
    if t.fault.None? then Run(ProducerResult(true, data), t.breaker, t.collector, log)
    else if attempt == cfg.maxRetryAttempts then
      Run(ProducerResult(false, EmptyEventData), t.breaker, t.collector, log + [Error(t.fault.value.Message())])
    else Publish(cfg, t.breaker, t.collector, data, clock, attempt + 1, log + [Warning(attempt + 1, t.fault.value)])
  }

  /**
   * The answer is valid exactly when the message was kept by the collector:
   * then it holds the message once more and the answer carries it;
   * otherwise the collector holds what it held and the answer carries the
   * empty message. The collector is called at most once per attempt, and a
   * null one stays null.
   */
  lemma {:induction false} PublishDeliversOnce(cfg: ProducerSettings, b: Breaker, collector: Option<Store<EventData>>,
                                               data: EventData, clock: nat -> DateTime, attempt: nat, log: seq<LogEntry>)
    requires ValidSettings(cfg) && attempt <= cfg.maxRetryAttempts
    ensures var r := Publish(cfg, b, collector, data, clock, attempt, log);
      && (collector.None? <==> r.collector.None?)
      && (r.result.valid ==> r.result.message == data)
      && (!r.result.valid ==> r.result.message == EmptyEventData)
      && (collector.Some? ==>
            && r.collector.value.items == (if r.result.valid then collector.value.items + [data] else collector.value.items)
            && r.collector.value.faults == collector.value.faults
            && collector.value.calls <= r.collector.value.calls <= collector.value.calls + cfg.maxRetryAttempts + 1 - attempt)
    decreases cfg.maxRetryAttempts - attempt
  {
    var t := Try(cfg, b, collector, data, clock(attempt));
    if t.fault.Some? && attempt < cfg.maxRetryAttempts {
      PublishDeliversOnce(cfg, t.breaker, t.collector, data, clock, attempt + 1, log + [Warning(attempt + 1, t.fault.value)]);
    }
  }

  /**
   * The log gains one warning per retry, numbered from `attempt + 1` on,
   * followed by one error exactly when the answer is invalid; there are at
   * most as many entries as attempts left.
   */
  lemma {:induction false} PublishLogsRetries(cfg: ProducerSettings, b: Breaker, collector: Option<Store<EventData>>,
                                              data: EventData, clock: nat -> DateTime, attempt: nat, log: seq<LogEntry>)
    requires ValidSettings(cfg) && attempt <= cfg.maxRetryAttempts
    ensures var r := Publish(cfg, b, collector, data, clock, attempt, log);
      && |log| <= |r.log| <= |log| + cfg.maxRetryAttempts + 1 - attempt
      && r.log[..|log|] == log
      && (forall i :: |log| <= i < |r.log| - 1 ==> r.log[i].Warning? && r.log[i].retryCount == i - |log| + attempt + 1)
      && (|r.log| > |log| ==>
            (r.log[|r.log| - 1].Error? <==> !r.result.valid)
            && (r.log[|r.log| - 1].Warning? ==> r.log[|r.log| - 1].retryCount == |r.log| - 1 - |log| + attempt + 1))
      && (|r.log| == |log| ==> r.result.valid)
    decreases cfg.maxRetryAttempts - attempt
  {
    var t := Try(cfg, b, collector, data, clock(attempt));
    if t.fault.Some? && attempt < cfg.maxRetryAttempts {
      var log' := log + [Warning(attempt + 1, t.fault.value)];
      PublishLogsRetries(cfg, t.breaker, t.collector, data, clock, attempt + 1, log');
      var r := Publish(cfg, b, collector, data, clock, attempt, log);
      assert r.log[..|log'|] == log';
      assert r.log[..|log|] == log'[..|log|] == log;
      assert r.log[|log|] == log'[|log|];
    }
  }

  /**
   * A collector that is null, or whose every remaining call throws, never
   * takes the message: the answer is invalid.
   */
  lemma {:induction false} BrokenCollectorIsInvalid(cfg: ProducerSettings, b: Breaker, collector: Option<Store<EventData>>,
                                                    data: EventData, clock: nat -> DateTime, attempt: nat, log: seq<LogEntry>)
    requires ValidSettings(cfg) && attempt <= cfg.maxRetryAttempts
    requires collector.Some? ==>
      forall k: nat :: collector.value.calls <= k <= collector.value.calls + cfg.maxRetryAttempts - attempt ==> k in collector.value.faults
    ensures !Publish(cfg, b, collector, data, clock, attempt, log).result.valid
    decreases cfg.maxRetryAttempts - attempt
  {
    var t := Try(cfg, b, collector, data, clock(attempt));
    if t.fault.Some? && attempt < cfg.maxRetryAttempts {
      BrokenCollectorIsInvalid(cfg, t.breaker, t.collector, data, clock, attempt + 1, log + [Warning(attempt + 1, t.fault.value)]);
    }
  }

  /**
   * While the circuit is open and the break lasts through every remaining
   * attempt, the collector is never called: each attempt is rejected, the
   * answer is invalid, and the error logged is the breaker's.
   */
  lemma {:induction false} OpenCircuitRejectsAll(cfg: ProducerSettings, b: Breaker, collector: Option<Store<EventData>>,
                                                 data: EventData, clock: nat -> DateTime, attempt: nat, log: seq<LogEntry>)
    requires ValidSettings(cfg) && attempt <= cfg.maxRetryAttempts
    requires b.circuit.Open?
    requires forall k: nat :: attempt <= k <= cfg.maxRetryAttempts ==> clock(k) < b.blockedTill
    ensures var r := Publish(cfg, b, collector, data, clock, attempt, log);
      && !r.result.valid && r.collector == collector && r.breaker == b
      && |r.log| > |log| && r.log[|r.log| - 1] == Error(BrokenCircuitException.Message())
    decreases cfg.maxRetryAttempts - attempt
  {
    if attempt < cfg.maxRetryAttempts {
      OpenCircuitRejectsAll(cfg, b, collector, data, clock, attempt + 1, log + [Warning(attempt + 1, BrokenCircuitException)]);
    }
  }

  /**
   * The breaker keeps its invariant, and a closed breaker that has seen
   * `exceptionsAllowed` consecutive failures of the collector is open until
   * the break ends.
   */
  lemma TryKeepsBreakerValid(cfg: ProducerSettings, b: Breaker, collector: Option<Store<EventData>>,
                             data: EventData, now: DateTime)
    requires ValidSettings(cfg) && BreakerValid(cfg, b)
    ensures var t := Try(cfg, b, collector, data, now);
      && BreakerValid(cfg, t.breaker)
      && (t.fault.None? ==> t.breaker.circuit == Closed && t.breaker.failures == 0)
      && (b.circuit.Closed? && t.fault.Some? ==>
            if b.failures + 1 == cfg.exceptionsAllowed
            then t.breaker.circuit.Open? && t.breaker.blockedTill == BlockedTill(cfg, now)
            else t.breaker == b.(failures := b.failures + 1))
  {
  }

  /** The first attempt that succeeds ends the call, with nothing logged after it. */
  lemma FirstSuccessEnds(cfg: ProducerSettings, b: Breaker, collector: Option<Store<EventData>>,
                         data: EventData, clock: nat -> DateTime, attempt: nat, log: seq<LogEntry>)
    requires ValidSettings(cfg) && attempt <= cfg.maxRetryAttempts
    requires Try(cfg, b, collector, data, clock(attempt)).fault.None?
    ensures var r := Publish(cfg, b, collector, data, clock, attempt, log);
      && r.result == ProducerResult(true, data) && r.log == log
      && r.collector.Some? && r.collector.value.calls == collector.value.calls + 1
  {
  }

  /** The breaker and settings, static in the source and so shared by every producer. */
  class ProducerPolicies {
    const settings: ProducerSettings
    var breaker: Breaker

    constructor (settings: ProducerSettings)
      requires ValidSettings(settings)
      ensures this.settings == settings && breaker == ClosedBreaker
    {
      this.settings := settings;
      breaker := ClosedBreaker;
    }

    predicate Valid()
      reads this
    {
      ValidSettings(settings) && BreakerValid(settings, breaker)
    }

    /** One execution of `AddAsync` through the breaker. */
    method Execute(collector: Collector?<EventData>, data: EventData, now: DateTime) returns (fault: Option<Exception>)
      requires Valid()
      modifies this, collector
      ensures Valid()
      ensures var t := Try(settings, old(breaker), old(if collector == null then None else Some(collector.State())), data, now);
        && breaker == t.breaker && fault == t.fault
        && (if collector == null then None else Some(collector.State())) == t.collector
    {
      TryKeepsBreakerValid(settings, breaker, if collector == null then None else Some(collector.State()), data, now);
      if breaker.circuit.Open? && now < breaker.blockedTill {
        return Some(BrokenCircuitException);
      }
      if collector == null {
        fault := Some(NullDereference);
      } else {
        fault := collector.Add(data);
      }
      if fault.None? {
        breaker := Breaker(Closed, 0, breaker.blockedTill);
      } else if breaker.circuit.Open? || breaker.failures + 1 >= settings.exceptionsAllowed {
        breaker := Breaker(Open, if breaker.circuit.Open? then breaker.failures else breaker.failures + 1,
                           BlockedTill(settings, now));
      } else {
        breaker := breaker.(failures := breaker.failures + 1);
      }
    }
  }

  /** The producer's log. */
  class Logger {
    var entries: seq<LogEntry>

    constructor ()
      ensures entries == []
    {
      entries := [];
    }

    method Log(e: LogEntry)
      modifies this
      ensures entries == old(entries) + [e]
    {
      entries := entries + [e];
    }
  }

  class Producer {
    var messagesCollector: Collector?<EventData>
    const logger: Logger
    const policies: ProducerPolicies

    /** `new Producer(collector, logger)`: stores both and rebuilds the shared policies, closing the circuit. */
    constructor (messagesCollector: Collector?<EventData>, logger: Logger, policies: ProducerPolicies)
      requires ValidSettings(policies.settings)
      modifies policies
      ensures this.messagesCollector == messagesCollector && this.logger == logger && this.policies == policies
      ensures policies.breaker == ClosedBreaker && policies.Valid()
    {
      this.messagesCollector := messagesCollector;
      this.logger := logger;
      this.policies := policies;
      policies.breaker := ClosedBreaker;
    }

    function CollectorState(): Option<Store<EventData>>
      reads this, messagesCollector
    {
      if messagesCollector == null then None else Some(messagesCollector.State())
    }

    /**
     * `ProduceCommandWithRetryAsync(message)`, with `data` the message's
     * serialized form: the attempts and retries `Publish` describes, never
     * throwing.
     */
    method ProduceCommandWithRetryAsync(data: EventData, clock: nat -> DateTime) returns (result: ProducerResult)
      requires policies.Valid()
      modifies policies, logger, messagesCollector
      ensures policies.Valid()
      ensures Run(result, policies.breaker, CollectorState(), logger.entries)
           == Publish(policies.settings, old(policies.breaker), old(CollectorState()), data, clock, 0, old(logger.entries))
    {
      var attempt := 0;
      while true
        invariant attempt <= policies.settings.maxRetryAttempts
        invariant policies.Valid()
        invariant Publish(policies.settings, policies.breaker, CollectorState(), data, clock, attempt, logger.entries)
               == Publish(policies.settings, old(policies.breaker), old(CollectorState()), data, clock, 0, old(logger.entries))
        decreases policies.settings.maxRetryAttempts - attempt
      {
        var fault := policies.Execute(messagesCollector, data, clock(attempt));
        if fault.None? {
          return ProducerResult(true, data);
        }
        if attempt == policies.settings.maxRetryAttempts {
          logger.Log(Error(fault.value.Message()));
          return ProducerResult(false, EmptyEventData);
        }
        logger.Log(Warning(attempt + 1, fault.value));
        attempt := attempt + 1;
      }
    }
  }
}
