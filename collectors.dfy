/**
 * The sinks the saga writes to: repositories (`IRepository<T>.AddAsync`),
 * message producers (`IMessageProducer.ProduceAsync`), Azure Functions
 * output bindings (`IAsyncCollector<T>.AddAsync`) and the durable client's
 * `RaiseEventAsync`. Each records, in order, what it accepted; which of its
 * calls throw (a broker outage, a storage error) is fixed when it is made.
 */
module Collectors {
  import opened Basics

  /** The value of a sink: what it holds, how often it was called, which calls fail. */
  datatype Store<T> = Store(items: seq<T>, calls: nat, faults: map<nat, Exception>)

  /** A store after a call, with the exception the call threw, if any. */
  datatype Added<T> = Added(store: Store<T>, fault: Option<Exception>)

  /** The outcome of an awaited call that threw `fault`, if it is present. */
  function Completion(fault: Option<Exception>): Result<Unit, Exception>
  {
    if fault.Some? then Err(fault.value) else Ok(Unit)
  }

  /** An empty sink whose calls fail as `faults` says. */
  function EmptyStore<T>(faults: map<nat, Exception>): Store<T>
  {
    Store([], 0, faults)
  }

  /** One `AddAsync`: the item is kept unless this call is one that throws. */
  function AddTo<T>(s: Store<T>, x: T): Added<T>
  {
    if s.calls in s.faults then Added(s.(calls := s.calls + 1), Some(s.faults[s.calls]))
    else Added(s.(items := s.items + [x], calls := s.calls + 1), None)
  }

  /** An awaited `AddAsync` for each item in turn, stopping at the first that throws. */
  function AddEach<T>(s: Store<T>, xs: seq<T>): Added<T>
    decreases |xs|
  {
    if xs == [] then Added(s, None)
    else
      var first := AddTo(s, xs[0]);
      if first.fault.Some? then first else AddEach(first.store, xs[1..])
  }

  /** No call numbered `from` up to, not including, `from + n` throws. */
  predicate NoFaultsIn(faults: map<nat, Exception>, from: nat, n: nat)
  {
    forall k: nat :: from <= k < from + n ==> k !in faults
  }

  /** A call that does not throw keeps exactly its item, after the earlier ones. */
  lemma AddToKeepsItem<T>(s: Store<T>, x: T)
    ensures AddTo(s, x).fault.None? <==> s.calls !in s.faults
    ensures AddTo(s, x).store.items == if s.calls in s.faults then s.items else s.items + [x]
    ensures AddTo(s, x).store.calls == s.calls + 1 && AddTo(s, x).store.faults == s.faults
  {
  }

  /** When none of the calls throws, every item is kept, in order. */
  lemma {:induction false} AddEachAllKept<T>(s: Store<T>, xs: seq<T>)
    requires NoFaultsIn(s.faults, s.calls, |xs|)
    ensures AddEach(s, xs) == Added(s.(items := s.items + xs, calls := s.calls + |xs|), None)
    decreases |xs|
  {
    if xs != [] {
      var first := AddTo(s, xs[0]);
      assert s.calls !in s.faults;
      assert NoFaultsIn(first.store.faults, first.store.calls, |xs[1..]|);
      AddEachAllKept(first.store, xs[1..]);
      assert s.items + [xs[0]] + xs[1..] == s.items + xs;
    }
  }

  /**
   * Whatever the faults, the items kept are the old ones followed by a
   * prefix of `xs`, and a shorter prefix than `xs` is kept only when a call
   * threw.
   */
  lemma {:induction false} AddEachKeepsPrefix<T>(s: Store<T>, xs: seq<T>)
    ensures var r := AddEach(s, xs);
      exists k :: 0 <= k <= |xs| && r.store.items == s.items + xs[..k]
        && (k < |xs| <==> r.fault.Some?) && r.store.faults == s.faults
    decreases |xs|
  {
    var r := AddEach(s, xs);
    if xs == [] {
      assert r.store.items == s.items + xs[..0];
    } else {
      var first := AddTo(s, xs[0]);
      if first.fault.Some? {
        assert r.store.items == s.items + xs[..0];
      } else {
        AddEachKeepsPrefix(first.store, xs[1..]);
        var k :| 0 <= k <= |xs[1..]| && r.store.items == first.store.items + xs[1..][..k]
          && (k < |xs[1..]| <==> r.fault.Some?) && r.store.faults == s.faults;
        assert s.items + [xs[0]] + xs[1..][..k] == s.items + xs[..k + 1];
      }
    }
  }

  /** A sink the code writes to in place. */
  class Collector<T> {
    var items: seq<T>
    var calls: nat
    const faults: map<nat, Exception>

    /** A sink that holds nothing yet. */
    constructor (faults: map<nat, Exception>)
      ensures State() == EmptyStore(faults)
    {
      items := [];
      calls := 0;
      this.faults := faults;
    }

    /** The sink as a value. */
    function State(): Store<T>
      reads this
    {
      Store(items, calls, faults)
    }

    /** `AddAsync`: keeps `x`, or throws the exception this call is fixed to throw. */
    method Add(x: T) returns (fault: Option<Exception>)
      modifies this
      ensures Added(State(), fault) == AddTo(old(State()), x)
    {
      fault := None;
      if calls in faults {
        fault := Some(faults[calls]);
      } else {
        items := items + [x];
      }
      calls := calls + 1;
    }
  }
}
