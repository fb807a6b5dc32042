/**
 * The Validator participant's domain: `InitialTransfer`, the aggregate that
 * validates a requested transfer (accounts present, amount positive) or
 * records its cancellation.
 */
module InitialTransferModel {
  import opened Basics
  import opened Messaging
  import ConstantStrings
  import Events = ValidatorServiceEventFactory
  import TransferLedger

  datatype InitialTransferState = NONE | VALID | INVALID | CANCELLED

  datatype Account = Account(id: Option<string>)

  datatype Amount = Amount(value: real)

  /** The aggregate as a value: what the repository keeps of it. */
  datatype InitialTransferRecord = InitialTransferRecord(
    transactionId: Option<string>,
    from: Account,
    to: Account,
    amount: Amount,
    state: InitialTransferState)

  /** The state an operation leaves the aggregate in, with the event it returns. */
  datatype Verdict = Verdict(state: InitialTransferState, event: Event)

  /**
   * `ValidateTransfer` as a value: a blank source account is checked first,
   * then a blank target, then a non-positive amount; each makes the
   * aggregate INVALID with the matching event, and otherwise it is VALID.
   * The resource names of the two account messages are as in the source:
   * a blank source reports ProcessAccountToError, a blank target
   * ProcessAccountFromError.
   */
  function Validation(t: InitialTransferRecord, eventId: string, now: DateTime): Verdict
  {
    if IsNullOrWhiteSpace(t.from.id) then
      Verdict(INVALID, Events.BuildInvalidAccountEvent(t.transactionId, ConstantStrings.ProcessAccountToError, eventId, now))
    else if IsNullOrWhiteSpace(t.to.id) then
      Verdict(INVALID, Events.BuildInvalidAccountEvent(t.transactionId, ConstantStrings.ProcessAccountFromError, eventId, now))
    else if t.amount.value <= 0.0 then
      Verdict(INVALID, Events.BuildInvalidAmountEvent(t.transactionId, ConstantStrings.ProcessAmountError, eventId, now))
    else Verdict(VALID, Events.BuildTransferValidatedEvent(t.transactionId, eventId, now))
  }

  /** `CancelTransfer` as a value: always CANCELLED with TransferCanceledEvent. */
  function Cancellation(t: InitialTransferRecord, eventId: string, now: DateTime): Verdict
  {
    Verdict(CANCELLED, Events.BuildTransferCanceledEvent(t.transactionId, eventId, now))
  }

  /**
   * A transfer is VALID exactly when both accounts are present and not
   * blank and the amount is positive, and INVALID otherwise; the event says
   * which, and always carries the aggregate's transaction id.
   */
  lemma ValidationVerdicts(t: InitialTransferRecord, eventId: string, now: DateTime)
    ensures var v := Validation(t, eventId, now);
      && (v.state == VALID <==> !IsNullOrWhiteSpace(t.from.id) && !IsNullOrWhiteSpace(t.to.id) && t.amount.value > 0.0)
      && (v.state == VALID || v.state == INVALID)
      && (v.state == VALID <==> v.event.kind == TransferValidatedEvent)
      && (v.event.kind == InvalidAccountEvent <==> IsNullOrWhiteSpace(t.from.id) || IsNullOrWhiteSpace(t.to.id))
      && (v.event.kind == InvalidAmountEvent <==>
            !IsNullOrWhiteSpace(t.from.id) && !IsNullOrWhiteSpace(t.to.id) && t.amount.value <= 0.0)
      && Stamped(v.event, Validator, t.transactionId, eventId, now)
  {
    Events.ValidatorEventsWellFormed(t.transactionId, ConstantStrings.ProcessAccountToError,
                                     NullDereference, eventId, now);
    Events.ValidatorEventsWellFormed(t.transactionId, ConstantStrings.ProcessAccountFromError,
                                     NullDereference, eventId, now);
    Events.ValidatorEventsWellFormed(t.transactionId, ConstantStrings.ProcessAmountError,
                                     NullDereference, eventId, now);
  }

  /**
   * The Validator and the Transfer participant check the same rule, except
   * that only Transfer also demands a transaction id: the Validator accepts
   * exactly the details the ledger would book under a non-blank id.
   */
  lemma ValidatorAgreesWithLedger(t: InitialTransferRecord, transactionId: Option<string>, eventId: string, now: DateTime)
    requires !IsNullOrWhiteSpace(transactionId)
    ensures Validation(t, eventId, now).state == VALID
        <==> TransferLedger.Validate(transactionId, t.from.id, t.to.id, t.amount.value).None?
  {
    TransferLedger.ValidateAccepts(transactionId, t.from.id, t.to.id, t.amount.value);
  }

  /** The aggregate, changed in place by its two operations. */
  class InitialTransfer {
    const transactionId: Option<string>
    var from: Account
    var to: Account
    var amount: Amount
    var state: InitialTransferState

    /** `new InitialTransfer(id, fromId, toId, amount)`: stores its arguments, in state NONE. */
    constructor (id: Option<string>, fromId: Option<string>, toId: Option<string>, value: real)
      ensures Snapshot() == InitialTransferRecord(id, Account(fromId), Account(toId), Amount(value), NONE)
    {
      transactionId := id;
      from := Account(fromId);
      to := Account(toId);
      amount := Amount(value);
      state := NONE;
    }

    /** The aggregate as a value. */
    function Snapshot(): InitialTransferRecord
      reads this
    {
      InitialTransferRecord(transactionId, from, to, amount, state)
    }

    /** `ValidateTransfer()`: changes only the state, never throws. */
    method ValidateTransfer(eventId: string, now: DateTime) returns (e: Event)
      modifies this`state
      ensures Verdict(state, e) == Validation(old(Snapshot()), eventId, now)
    {
      if IsNullOrWhiteSpace(from.id) {
        state := INVALID;
        return Events.BuildInvalidAccountEvent(transactionId, ConstantStrings.ProcessAccountToError, eventId, now);
      }
      if IsNullOrWhiteSpace(to.id) {
        state := INVALID;
        return Events.BuildInvalidAccountEvent(transactionId, ConstantStrings.ProcessAccountFromError, eventId, now);
      }
      if amount.value <= 0.0 {
        state := INVALID;
        return Events.BuildInvalidAmountEvent(transactionId, ConstantStrings.ProcessAmountError, eventId, now);
      }
      state := VALID;
      return Events.BuildTransferValidatedEvent(transactionId, eventId, now);
    }

    /** `CancelTransfer()`: changes only the state. */
    method CancelTransfer(eventId: string, now: DateTime) returns (e: Event)
      modifies this`state
      ensures Verdict(state, e) == Cancellation(old(Snapshot()), eventId, now)
    {
      state := CANCELLED;
      return Events.BuildTransferCanceledEvent(transactionId, eventId, now);
    }
  }
}
