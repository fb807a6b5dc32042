/**
 * The transaction record the orchestrator carries through a saga and
 * persists at every state change, and the factory that stamps it with a
 * saga state.
 */
module Transactions {
  import opened Basics

  /** The states a saga is persisted in. */
  datatype SagaState = Pending | Success | Cancelled | Fail
  {
    /** `SagaState.ToString()`. */
    function Name(): string
    {
      match this
      case Pending => "Pending"
      case Success => "Success"
      case Cancelled => "Cancelled"
      case Fail => "Fail"
    }
  }

  /** State names identify the state. */
  lemma SagaStateNamesDistinct(a: SagaState, b: SagaState)
    ensures a.Name() == b.Name() <==> a == b
  {
  }

  /** A transaction document: `id`, `state`, the two accounts and a `decimal` amount. */
  datatype TransactionItem = TransactionItem(
    id: string,
    state: string,
    accountFromId: Option<string>,
    accountToId: Option<string>,
    amount: real)

  /**
   * `new TransactionItem()`: a fresh GUID as id (drawn by the caller and
   * passed in), state Pending, no accounts, amount 0.
   */
  function NewTransactionItem(guid: string): (t: TransactionItem)
    ensures t.id == guid && t.state == Pending.Name()
    ensures t.accountFromId.None? && t.accountToId.None? && t.amount == 0.0
  {
    TransactionItem(guid, Pending.Name(), None, None, 0.0)
  }

  /**
   * `TransactionFactory.BuildTransactionItemByState`: a new item with the
   * identity, accounts and amount of `item` and the name of `state`.
   */
  function BuildTransactionItemByState(item: TransactionItem, state: SagaState): TransactionItem
  {
    TransactionItem(item.id, state.Name(), item.accountFromId, item.accountToId, item.amount)
  }

  /** The copy keeps id, accounts and amount, and carries the state's name. */
  lemma BuildKeepsIdentity(item: TransactionItem, state: SagaState)
    ensures var t := BuildTransactionItemByState(item, state);
      t.id == item.id && t.accountFromId == item.accountFromId
      && t.accountToId == item.accountToId && t.amount == item.amount
      && t.state == state.Name()
  {
  }

  /** Only the state distinguishes the copy from the item: restamping the old state gives the item back. */
  lemma BuildChangesOnlyState(item: TransactionItem, state: SagaState)
    ensures BuildTransactionItemByState(item, state) == item.(state := state.Name())
    ensures (item.state == state.Name()) <==> BuildTransactionItemByState(item, state) == item
  {
  }

  /** Stamping with s1 and then s2 is stamping with s2; so stamping one state twice is stamping it once. */
  lemma BuildLastStateWins(item: TransactionItem, s1: SagaState, s2: SagaState)
    ensures BuildTransactionItemByState(BuildTransactionItemByState(item, s1), s2)
         == BuildTransactionItemByState(item, s2)
  {
  }
}
