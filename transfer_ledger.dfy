/**
 * The Transfer participant's domain: `CheckingAccountTransfer`, an
 * append-only ledger of `CheckingAccountLine`s. A transfer debits the
 * source account and credits the target; a cancellation credits the source
 * back and debits the target.
 */
module TransferLedger {
  import opened Basics
  import opened Messaging
  import TransferServiceEventFactory

  /**
   * The description of a ledger line: the transferring message (naming the
   * other account) or the reverting message. Their texts are resource
   * strings that are not part of this model.
   */
  datatype Description = Transfering(otherAccountId: Option<string>) | Reverting

  /** One ledger line. TransactionId is get-only; the record is a value. */
  datatype CheckingAccountLine = CheckingAccountLine(
    transferId: string,
    transactionId: Option<string>,
    transferDate: DateTime,
    transferType: Option<string>,
    accountId: Option<string>,
    amount: real,
    description: Description)

  /**
   * `new CheckingAccountLine(transactionId, accountId, amount, description)`;
   * `transferId` is the fresh GUID and `now` the reading of `SystemTime.Now`.
   */
  function NewCheckingAccountLine(transactionId: Option<string>, accountId: Option<string>, amount: real,
                                  description: Description, transferId: string, now: DateTime): CheckingAccountLine
  {
    CheckingAccountLine(transferId, transactionId, now, transactionId, accountId, amount, description)
  }

  /**
   * A line copies its transaction id, account, amount and description,
   * uses the transaction id as its transfer type, and takes its id from the
   * GUID and its date from the clock.
   */
  lemma LineCopiesArguments(transactionId: Option<string>, accountId: Option<string>, amount: real,
                            description: Description, transferId: string, now: DateTime)
    ensures var l := NewCheckingAccountLine(transactionId, accountId, amount, description, transferId, now);
      && l.transactionId == transactionId && l.accountId == accountId
      && l.amount == amount && l.description == description
      && l.transferType == transactionId
      && l.transferId == transferId && l.transferDate == now
  {
  }

  /** The GUIDs and clock reading one ledger operation uses: one per line and one for the event. */
  datatype LedgerDraws = LedgerDraws(firstLineId: string, secondLineId: string, eventId: string, now: DateTime)

  /**
   * `Validate`: the first argument that is null or white space throws a
   * NullReferenceException whose message names it (transaction id, then
   * source, then target); then a non-positive amount throws an
   * ArgumentException on parameter "amount".
   */
  function Validate(transactionId: Option<string>, fromAccountId: Option<string>, toAccountId: Option<string>,
                    amount: real): Option<Exception>
  {
    if IsNullOrWhiteSpace(transactionId) then Some(NullReferenceException(Some("transactionId")))
    else if IsNullOrWhiteSpace(fromAccountId) then Some(NullReferenceException(Some("fromAccountId")))
    else if IsNullOrWhiteSpace(toAccountId) then Some(NullReferenceException(Some("toAccountId")))
    else if amount <= 0.0 then Some(ArgumentException("Amount needs to be greater than 0", Some("amount")))
    else None
  }

  /** Validation passes exactly when the three ids are present and not blank and the amount is positive. */
  lemma ValidateAccepts(transactionId: Option<string>, fromAccountId: Option<string>, toAccountId: Option<string>,
                        amount: real)
    ensures Validate(transactionId, fromAccountId, toAccountId, amount).None? <==>
      !IsNullOrWhiteSpace(transactionId) && !IsNullOrWhiteSpace(fromAccountId)
      && !IsNullOrWhiteSpace(toAccountId) && amount > 0.0
    ensures var v := Validate(transactionId, fromAccountId, toAccountId, amount);
      (v.Some? && v.value.NullReferenceException?) <==>
        (IsNullOrWhiteSpace(transactionId) || IsNullOrWhiteSpace(fromAccountId) || IsNullOrWhiteSpace(toAccountId))
  {
  }

  /** The two lines of a transfer: the debit of the source, then the credit of the target. */
  function TransferLines(transactionId: Option<string>, fromAccountId: Option<string>, toAccountId: Option<string>,
                         amount: real, draws: LedgerDraws): seq<CheckingAccountLine>
  {
    [NewCheckingAccountLine(transactionId, fromAccountId, -amount, Transfering(toAccountId), draws.firstLineId, draws.now),
     NewCheckingAccountLine(transactionId, toAccountId, amount, Transfering(fromAccountId), draws.secondLineId, draws.now)]
  }

  /** The two lines of a cancellation: the credit of the source, then the debit of the target. */
  function CancelLines(transactionId: Option<string>, fromAccountId: Option<string>, toAccountId: Option<string>,
                       amount: real, draws: LedgerDraws): seq<CheckingAccountLine>
  {
    [NewCheckingAccountLine(transactionId, fromAccountId, amount, Reverting, draws.firstLineId, draws.now),
     NewCheckingAccountLine(transactionId, toAccountId, -amount, Reverting, draws.secondLineId, draws.now)]
  }

  /** The sum of the amounts of all lines. */
  function Total(lines: seq<CheckingAccountLine>): real
    decreases |lines|
  {
    if lines == [] then 0.0 else lines[0].amount + Total(lines[1..])
  }

  /** The sum of the amounts of the lines booked on `account`. */
  function Balance(lines: seq<CheckingAccountLine>, account: Option<string>): real
    decreases |lines|
  {
    if lines == [] then 0.0
    else (if lines[0].accountId == account then lines[0].amount else 0.0) + Balance(lines[1..], account)
  }

  lemma {:induction false} BalanceAppend(a: seq<CheckingAccountLine>, b: seq<CheckingAccountLine>, account: Option<string>)
    ensures Balance(a + b, account) == Balance(a, account) + Balance(b, account)
    decreases |a|
  {
    if a == [] {
      assert a + b == b;
    } else {
      assert (a + b)[0] == a[0];
      assert (a + b)[1..] == a[1..] + b;
      BalanceAppend(a[1..], b, account);
    }
  }

  /** The total and the balances of a pair of lines. */
  lemma PairSums(l1: CheckingAccountLine, l2: CheckingAccountLine, account: Option<string>)
    ensures Total([l1, l2]) == l1.amount + l2.amount
    ensures Balance([l1, l2], account)
         == (if l1.accountId == account then l1.amount else 0.0) + (if l2.accountId == account then l2.amount else 0.0)
  {
    assert [l1, l2][1..] == [l2];
    assert [l2][1..] == [];
    assert Total([l2]) == l2.amount + Total([]);
    assert Total([l1, l2]) == l1.amount + Total([l2]);
    assert Balance([l2], account) == (if l2.accountId == account then l2.amount else 0.0) + Balance([], account);
    assert Balance([l1, l2], account) == (if l1.accountId == account then l1.amount else 0.0) + Balance([l2], account);
  }

  /**
   * Each operation moves `amount` from one account to the other: its two
   * lines sum to zero, and a transfer followed by its cancellation leaves
   * every account where it was.
   */
  lemma TransferThenCancelNetsZero(transactionId: Option<string>, fromAccountId: Option<string>,
                                   toAccountId: Option<string>, amount: real,
                                   d1: LedgerDraws, d2: LedgerDraws, account: Option<string>)
    ensures Total(TransferLines(transactionId, fromAccountId, toAccountId, amount, d1)) == 0.0
    ensures Total(CancelLines(transactionId, fromAccountId, toAccountId, amount, d2)) == 0.0
    ensures Balance(TransferLines(transactionId, fromAccountId, toAccountId, amount, d1)
                    + CancelLines(transactionId, fromAccountId, toAccountId, amount, d2), account) == 0.0
  {
    var t := TransferLines(transactionId, fromAccountId, toAccountId, amount, d1);
    var c := CancelLines(transactionId, fromAccountId, toAccountId, amount, d2);
    BalanceAppend(t, c, account);
    PairSums(t[0], t[1], account);
    PairSums(c[0], c[1], account);
  }

  /** A transfer takes `amount` from the source and gives it to the target, when they differ. */
  lemma TransferMovesAmount(transactionId: Option<string>, fromAccountId: Option<string>,
                            toAccountId: Option<string>, amount: real, draws: LedgerDraws)
    requires fromAccountId != toAccountId
    ensures Balance(TransferLines(transactionId, fromAccountId, toAccountId, amount, draws), fromAccountId) == -amount
    ensures Balance(TransferLines(transactionId, fromAccountId, toAccountId, amount, draws), toAccountId) == amount
  {
    var t := TransferLines(transactionId, fromAccountId, toAccountId, amount, draws);
    PairSums(t[0], t[1], fromAccountId);
    PairSums(t[0], t[1], toAccountId);
  }

  /** The ledger of one transfer command, changed in place. */
  class CheckingAccountTransfer {
    var operations: seq<CheckingAccountLine>

    /** A new aggregate with an empty ledger. */
    constructor ()
      ensures operations == []
    {
      operations := [];
    }

    /** `CheckingAccountLines`: the ledger, read-only. */
    function CheckingAccountLines(): seq<CheckingAccountLine>
      reads this
    {
      operations
    }

    /**
     * `TranferAmountBetweenAccounts`: after validation, appends the transfer's
     * two lines and returns TransferSucceededEvent for the transaction; a
     * failed validation throws and leaves the ledger as it was.
     */
    method TranferAmountBetweenAccounts(transactionId: Option<string>, fromAccountId: Option<string>,
                                        toAccountId: Option<string>, amount: real, draws: LedgerDraws)
      returns (r: Result<Event, Exception>)
      modifies this
      ensures var v := Validate(transactionId, fromAccountId, toAccountId, amount);
        && (v.Some? ==> r == Err(v.value) && operations == old(operations))
        && (v.None? ==> r == Ok(TransferServiceEventFactory.BuildTransferSucceededEvent(transactionId, draws.eventId, draws.now))
                        && operations == old(operations) + TransferLines(transactionId, fromAccountId, toAccountId, amount, draws))
    {
      var invalid := Validate(transactionId, fromAccountId, toAccountId, amount);
      if invalid.Some? {
        return Err(invalid.value);
      }
      var debitFrom := NewCheckingAccountLine(transactionId, fromAccountId, -amount, Transfering(toAccountId),
                                              draws.firstLineId, draws.now);
      operations := operations + [debitFrom];
      var creditTo := NewCheckingAccountLine(transactionId, toAccountId, amount, Transfering(fromAccountId),
                                             draws.secondLineId, draws.now);
      operations := operations + [creditTo];
      return Ok(TransferServiceEventFactory.BuildTransferSucceededEvent(transactionId, draws.eventId, draws.now));
    }

    /**
     * `CancelTranferAmountBetweenAccounts`: after validation, appends the
     * cancellation's two lines and returns TransferCanceledEvent for the
     * transaction; a failed validation throws and leaves the ledger as it was.
     */
    method CancelTranferAmountBetweenAccounts(transactionId: Option<string>, fromAccountId: Option<string>,
                                              toAccountId: Option<string>, amount: real, draws: LedgerDraws)
      returns (r: Result<Event, Exception>)
      modifies this
      ensures var v := Validate(transactionId, fromAccountId, toAccountId, amount);
        && (v.Some? ==> r == Err(v.value) && operations == old(operations))
        && (v.None? ==> r == Ok(TransferServiceEventFactory.BuildTransferCanceledEvent(transactionId, draws.eventId, draws.now))
                        && operations == old(operations) + CancelLines(transactionId, fromAccountId, toAccountId, amount, draws))
    {
      var invalid := Validate(transactionId, fromAccountId, toAccountId, amount);
      if invalid.Some? {
        return Err(invalid.value);
      }
      var creditFrom := NewCheckingAccountLine(transactionId, fromAccountId, amount, Reverting,
                                               draws.firstLineId, draws.now);
      operations := operations + [creditFrom];
      var debitTo := NewCheckingAccountLine(transactionId, toAccountId, -amount, Reverting,
                                            draws.secondLineId, draws.now);
      operations := operations + [debitTo];
      return Ok(TransferServiceEventFactory.BuildTransferCanceledEvent(transactionId, draws.eventId, draws.now));
    }
  }
}
