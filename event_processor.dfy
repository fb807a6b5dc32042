/**
 * `EventProcessor.SagaEventProcessor`: the function that receives the
 * participants' reply events from the reply hub. For each event it stores a
 * `SagaItem` (the event's header fields) and raises, on the orchestration
 * instance named by the transaction id, an external event named after the
 * sending service, carrying the event's class name. An event without a
 * header is logged and skipped.
 */
module EventProcessing {
  import opened Basics
  import opened Messaging
  import opened Collectors
  import opened DurableContext

  /** The document stored for each reply event. */
  datatype SagaItem = SagaItem(transactionId: Option<string>, messageType: Option<string>, source: string, creationDate: DateTime)

  /** One `RaiseEventAsync(instanceId, eventName, eventData)` call. */
  datatype Signal = Signal(instanceId: Option<string>, eventName: string, payload: Option<string>)

  /**
   * A received event, as the UTF-8 decoding and the JSON deserialization of
   * its body leave it: its header (null when missing), or the exception they
   * throw (a body that is JSON `null` throws when its header is read).
   */
  datatype ReplyData = ReplyData(parsed: Result<Option<MessageHeader>, Exception>)

  /** What a batch leaves: both sinks, whether it threw, and how many errors it logged. */
  datatype Batch = Batch(documents: Store<SagaItem>, signals: Store<Signal>, result: Result<Unit, Exception>,
                         loggedErrors: nat)

  /** The object initializer of the stored item. */
  function ItemOf(h: MessageHeader): SagaItem
  {
    SagaItem(h.transactionId, h.messageType, h.source, h.creationDate)
  }

  /** The external event raised for a header. */
  function SignalOf(h: MessageHeader): Signal
  {
    Signal(h.transactionId, h.source, h.messageType)
  }

  /** The loop over the batch, from `events[0]` on: the first exception ends it. */
  function Process(documents: Store<SagaItem>, signals: Store<Signal>, events: seq<ReplyData>, loggedErrors: nat): Batch
    decreases |events|
  {
    if events == [] then Batch(documents, signals, Ok(Unit), loggedErrors)
    else match events[0].parsed
      case Err(e) => Batch(documents, signals, Err(e), loggedErrors)
      case Ok(None) => Process(documents, signals, events[1..], loggedErrors + 1)
      case Ok(Some(h)) =>
        var stored := AddTo(documents, ItemOf(h));
        if stored.fault.Some? then Batch(stored.store, signals, Err(stored.fault.value), loggedErrors)
        else
          var raised := AddTo(signals, SignalOf(h));
          if raised.fault.Some? then Batch(stored.store, raised.store, Err(raised.fault.value), loggedErrors)
          else Process(stored.store, raised.store, events[1..], loggedErrors)
  }

  /** `SagaEventProcessor(eventsData, documentCollector, client, log)`, on the two sinks in place. */
  method SagaEventProcessor(eventsData: seq<ReplyData>, documentCollector: Collector<SagaItem>, client: Collector<Signal>)
    returns (result: Result<Unit, Exception>, loggedErrors: nat)
    modifies documentCollector, client
    ensures Batch(documentCollector.State(), client.State(), result, loggedErrors)
         == Process(old(documentCollector.State()), old(client.State()), eventsData, 0)
  {
    loggedErrors := 0;
    var i := 0;
    while i < |eventsData|
      invariant 0 <= i <= |eventsData|
      invariant Process(documentCollector.State(), client.State(), eventsData[i..], loggedErrors)
             == Process(old(documentCollector.State()), old(client.State()), eventsData, 0)
    {
      assert eventsData[i..][1..] == eventsData[i + 1..];
      var parsed := eventsData[i].parsed;
      if parsed.Err? {
        return Err(parsed.error), loggedErrors;
      }
      if parsed.value.None? {
        loggedErrors := loggedErrors + 1;
        i := i + 1;
        continue;
      }
      var header := parsed.value.value;
      var fault := documentCollector.Add(SagaItem(header.transactionId, header.messageType, header.source,
                                                  header.creationDate));
      if fault.Some? {
        return Err(fault.value), loggedErrors;
      }
      fault := client.Add(Signal(header.transactionId, header.source, header.messageType));
      if fault.Some? {
        return Err(fault.value), loggedErrors;
      }
      i := i + 1;
    }
    return Ok(Unit), loggedErrors;
  }

  /** The headers of the batch's events that have one, in order. */
  function Headers(events: seq<ReplyData>): seq<MessageHeader>
    decreases |events|
  {
    if events == [] then []
    else if events[0].parsed.Ok? && events[0].parsed.value.Some? then [events[0].parsed.value.value] + Headers(events[1..])
    else Headers(events[1..])
  }

  /** The number of events that deserialize without a header. */
  function Headerless(events: seq<ReplyData>): nat
    decreases |events|
  {
    if events == [] then 0
    else (if events[0].parsed == Ok(None) then 1 else 0) + Headerless(events[1..])
  }

  function Items(hs: seq<MessageHeader>): seq<SagaItem>
    decreases |hs|
  {
    if hs == [] then [] else [ItemOf(hs[0])] + Items(hs[1..])
  }

  function Signals(hs: seq<MessageHeader>): seq<Signal>
    decreases |hs|
  {
    if hs == [] then [] else [SignalOf(hs[0])] + Signals(hs[1..])
  }

  /** Every event's body deserializes. */
  predicate AllParse(events: seq<ReplyData>)
  {
    forall i :: 0 <= i < |events| ==> events[i].parsed.Ok?
  }

  /**
   * A batch whose events all deserialize, on sinks none of whose next calls
   * fails, stores one item and raises one event per event with a header, in
   * the batch's order, logs one error per event without, and completes.
   */
  lemma {:induction false} ProcessHandlesEveryHeader(documents: Store<SagaItem>, signals: Store<Signal>,
                                                     events: seq<ReplyData>, loggedErrors: nat)
    requires AllParse(events)
    requires NoFaultsIn(documents.faults, documents.calls, |Headers(events)|)
    requires NoFaultsIn(signals.faults, signals.calls, |Headers(events)|)
    ensures var b := Process(documents, signals, events, loggedErrors);
      && b.result == Ok(Unit)
      && b.documents.items == documents.items + Items(Headers(events))
      && b.signals.items == signals.items + Signals(Headers(events))
      && b.loggedErrors == loggedErrors + Headerless(events)
    decreases |events|
  {
    if events != [] {
      var rest := events[1..];
      assert AllParse(rest) by {
        forall i | 0 <= i < |rest|
          ensures rest[i].parsed.Ok?
        {
          assert rest[i] == events[i + 1];
        }
      }
      assert events[0].parsed.Ok?;
      if events[0].parsed.value.None? {
        ProcessHandlesEveryHeader(documents, signals, rest, loggedErrors + 1);
      } else {
        var h := events[0].parsed.value.value;
        assert documents.calls !in documents.faults && signals.calls !in signals.faults;
        var stored := AddTo(documents, ItemOf(h));
        var raised := AddTo(signals, SignalOf(h));
        assert NoFaultsIn(stored.store.faults, stored.store.calls, |Headers(rest)|);
        assert NoFaultsIn(raised.store.faults, raised.store.calls, |Headers(rest)|);
        ProcessHandlesEveryHeader(stored.store, raised.store, rest, loggedErrors);
        assert documents.items + [ItemOf(h)] + Items(Headers(rest)) == documents.items + Items(Headers(events));
        assert signals.items + [SignalOf(h)] + Signals(Headers(rest)) == signals.items + Signals(Headers(events));
      }
    }
  }

  lemma {:induction false} ItemsPrefix(hs: seq<MessageHeader>, k: nat)
    requires k < |hs|
    ensures Items(hs[..k + 1]) == Items(hs[..k]) + [ItemOf(hs[k])]
    ensures Signals(hs[..k + 1]) == Signals(hs[..k]) + [SignalOf(hs[k])]
    decreases k
  {
    if k > 0 {
      assert hs[..k + 1][1..] == hs[1..][..k];
      assert hs[..k][1..] == hs[1..][..k - 1];
      ItemsPrefix(hs[1..], k - 1);
    }
  }

  /**
   * The batch `b` stored the items of the first `k` headers and raised the
   * events of the same headers, or of all but the last when it threw; if it
   * completed, it handled every header.
   */
  predicate InStep(documents: Store<SagaItem>, signals: Store<Signal>, hs: seq<MessageHeader>, b: Batch, k: int)
  {
    0 <= k <= |hs| && b.documents.items == documents.items + Items(hs[..k])
    && (b.signals.items == signals.items + Signals(hs[..k])
        || (0 < k && b.result.Err? && b.signals.items == signals.items + Signals(hs[..k - 1])))
    && (b.result.Ok? ==> k == |hs|)
  }

  /** One more header handled in full keeps the sinks in step. */
  lemma InStepCons(documents: Store<SagaItem>, signals: Store<Signal>, h: MessageHeader, rest: seq<MessageHeader>,
                   b: Batch, k: int)
    requires documents.calls !in documents.faults && signals.calls !in signals.faults
    requires InStep(AddTo(documents, ItemOf(h)).store, AddTo(signals, SignalOf(h)).store, rest, b, k)
    ensures InStep(documents, signals, [h] + rest, b, k + 1)
  {
    var hs := [h] + rest;
    assert hs[..k + 1] == [h] + rest[..k];
    assert Items(hs[..k + 1]) == [ItemOf(h)] + Items(rest[..k]);
    assert Signals(hs[..k + 1]) == [SignalOf(h)] + Signals(rest[..k]);
    if 0 < k {
      assert hs[..k] == [h] + rest[..k - 1];
      assert Signals(hs[..k]) == [SignalOf(h)] + Signals(rest[..k - 1]);
    }
  }

  /**
   * Whatever throws, the batch keeps the two sinks in step: what it stored
   * and what it raised follow the batch's headers in order, at most one
   * item ahead, and only when it threw.
   */
  lemma {:induction false} ProcessKeepsSinksInStep(documents: Store<SagaItem>, signals: Store<Signal>,
                                                   events: seq<ReplyData>, loggedErrors: nat)
    ensures exists k :: InStep(documents, signals, Headers(events), Process(documents, signals, events, loggedErrors), k)
    decreases |events|
  {
    var b := Process(documents, signals, events, loggedErrors);
    var hs := Headers(events);
    if events == [] {
      assert InStep(documents, signals, hs, b, 0);
    } else if events[0].parsed.Err? {
      assert InStep(documents, signals, hs, b, 0);
    } else if events[0].parsed.value.None? {
      assert hs == Headers(events[1..]);
      assert b == Process(documents, signals, events[1..], loggedErrors + 1);
      ProcessKeepsSinksInStep(documents, signals, events[1..], loggedErrors + 1);
    } else {
      var h := events[0].parsed.value.value;
      var stored := AddTo(documents, ItemOf(h));
      var raised := AddTo(signals, SignalOf(h));
      assert hs == [h] + Headers(events[1..]);
      ItemsPrefix(hs, 0);
      if stored.fault.Some? {
        assert InStep(documents, signals, hs, b, 0);
      } else if raised.fault.Some? {
        assert InStep(documents, signals, hs, b, 1);
      } else {
        var rest := Headers(events[1..]);
        assert b == Process(stored.store, raised.store, events[1..], loggedErrors);
        ProcessKeepsSinksInStep(stored.store, raised.store, events[1..], loggedErrors);
        var k :| InStep(stored.store, raised.store, rest, b, k);
        InStepCons(documents, signals, h, rest, b, k);
      }
    }
  }

  /**
   * The event raised for a participant's reply is the one the orchestration
   * waits for: it goes to the instance named by the transaction id, its
   * name is the sending service's (the name `WaitForExternalEventWithTimeout`
   * listens on for that participant), and its payload is the expected event
   * class's name exactly when the reply is of that class.
   */
  lemma SignalAnswersWait(e: Event, source: Sources, expected: EventKind, ctx: OrchestrationContext, timeout: TimeSpan)
    requires e.BuiltBy(source)
    ensures var sig := SignalOf(e.header);
      && sig.instanceId == e.header.transactionId
      && (sig.payload == Some(expected.Name()) <==> e.kind == expected)
      && (AwaitExternalEvent(Some(ctx), source, timeout, TaskFirst(sig.payload)).Ok? ==>
            var w := AwaitExternalEvent(Some(ctx), source, timeout, TaskFirst(sig.payload)).value;
            w.eventName == sig.eventName && w.value == Some(sig.payload))
  {
    EventNamesDistinct(e.kind, expected);
  }
}
