/**
 * The `SagaOrchestratorActivity` activity function: it writes a
 * transaction document to the orchestrator's document collection, inserting
 * it when the saga starts (state Pending) and otherwise updating the "state"
 * property of the document with the same id.
 */
module OrchestratorActivity {
  import opened Basics
  import opened Transactions

  /** The collection after the activity, and what the activity returned or threw. */
  datatype Persisted = Persisted(documents: map<string, TransactionItem>, result: Result<TransactionItem, Exception>)

  /**
   * The activity on the collection as a value. A Pending item goes through
   * the output binding, which upserts it by id. Any other item looks up the
   * document with its id (`FirstOrDefault`, null when there is none),
   * changes that document's "state" and replaces it; with no document the
   * `SetPropertyValue` call dereferences null.
   */
  function PersistTransaction(documents: map<string, TransactionItem>, item: TransactionItem): Persisted
  {
    if item.state == Pending.Name() then Persisted(documents[item.id := item], Ok(item))
    else if item.id in documents then
      Persisted(documents[item.id := documents[item.id].(state := item.state)], Ok(item))
    else Persisted(documents, Err(NullDereference))
  }

  /** A Pending item is stored as it is, under its id, and returned. */
  lemma PendingIsInsertedAsIs(documents: map<string, TransactionItem>, item: TransactionItem)
    requires item.state == Pending.Name()
    ensures PersistTransaction(documents, item) == Persisted(documents[item.id := item], Ok(item))
  {
  }

  /**
   * Any other item changes only the "state" of the document with its id:
   * every other document, and every other property of that one, is kept.
   */
  lemma OtherStatesUpdateOnlyState(documents: map<string, TransactionItem>, item: TransactionItem)
    requires item.state != Pending.Name() && item.id in documents
    ensures var p := PersistTransaction(documents, item);
      && p.result == Ok(item)
      && p.documents.Keys == documents.Keys
      && p.documents[item.id] == documents[item.id].(state := item.state)
      && (forall id :: id in documents && id != item.id ==> p.documents[id] == documents[id])
  {
  }

  /** A non-Pending item without a stored document fails on a null dereference and stores nothing. */
  lemma MissingDocumentFails(documents: map<string, TransactionItem>, item: TransactionItem)
    requires item.state != Pending.Name() && item.id !in documents
    ensures PersistTransaction(documents, item) == Persisted(documents, Err(NullDereference))
  {
  }

  /** The item the activity returns, when it returns, is its input unchanged. */
  lemma ReturnsItsInput(documents: map<string, TransactionItem>, item: TransactionItem)
    ensures var p := PersistTransaction(documents, item);
      p.result.Ok? ==> p.result.value == item
    ensures PersistTransaction(documents, item).result.Err? <==> (item.state != Pending.Name() && item.id !in documents)
  {
  }

  /** Persists `item` stamped with each state of `states` in turn, stopping at the first failure. */
  function PersistStates(documents: map<string, TransactionItem>, item: TransactionItem, states: seq<SagaState>)
    : map<string, TransactionItem>
    decreases |states|
  {
    if states == [] then documents
    else
      var p := PersistTransaction(documents, BuildTransactionItemByState(item, states[0]));
      if p.result.Err? then p.documents else PersistStates(p.documents, item, states[1..])
  }

  /**
   * The saga's persistence lifecycle: once the Pending copy is stored, every
   * later state lands on that document, which ends up as the item stamped
   * with the last state persisted, and no other document is touched.
   */
  lemma {:induction false} LifecycleEndsInLastState(documents: map<string, TransactionItem>,
                                                   item: TransactionItem, states: seq<SagaState>)
    requires |states| > 0 && states[0] == Pending
    ensures var d := PersistStates(documents, item, states);
      && d.Keys == documents.Keys + {item.id}
      && d[item.id] == BuildTransactionItemByState(item, states[|states| - 1])
      && (forall id :: id in documents && id != item.id ==> d[id] == documents[id])
  {
    var first := PersistTransaction(documents, BuildTransactionItemByState(item, Pending));
    assert first.documents == documents[item.id := BuildTransactionItemByState(item, Pending)];
    LaterStatesUpdate(first.documents, item, states[1..], Pending);
  }

  /** Induction step of the lifecycle: the document already holds `item` stamped with `last`. */
  lemma {:induction false} LaterStatesUpdate(documents: map<string, TransactionItem>, item: TransactionItem,
                                             states: seq<SagaState>, last: SagaState)
    requires item.id in documents && documents[item.id] == BuildTransactionItemByState(item, last)
    ensures var d := PersistStates(documents, item, states);
      && d.Keys == documents.Keys
      && d[item.id] == BuildTransactionItemByState(item, if states == [] then last else states[|states| - 1])
      && (forall id :: id in documents && id != item.id ==> d[id] == documents[id])
    decreases |states|
  {
    if states != [] {
      var stamped := BuildTransactionItemByState(item, states[0]);
      var p := PersistTransaction(documents, stamped);
      assert p.result.Ok?;
      assert p.documents[item.id] == stamped;
      LaterStatesUpdate(p.documents, item, states[1..], states[0]);
      if states[1..] != [] {
        assert states[1..][|states[1..]| - 1] == states[|states| - 1];
      }
    }
  }

  /** The orchestrator's transaction collection, changed in place by the activity. */
  class TransactionCollection {
    var documents: map<string, TransactionItem>

    constructor (documents: map<string, TransactionItem>)
      ensures this.documents == documents
    {
      this.documents := documents;
    }

    /** `SagaOrchestratorActivity(item)`. */
    method SagaOrchestratorActivity(item: TransactionItem) returns (r: Result<TransactionItem, Exception>)
      modifies this
      ensures Persisted(documents, r) == PersistTransaction(old(documents), item)
    {
      if item.state == Pending.Name() {
        documents := documents[item.id := item];
        return Ok(item);
      }
      if item.id !in documents {
        return Err(NullDereference);
      }
      var document := documents[item.id];
      documents := documents[item.id := document.(state := item.state)];
      return Ok(item);
    }
  }
}
